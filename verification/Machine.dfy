/** The operator and its surroundings as a state machine: every step is at most one API call, any call may fail,
    the process may stop anywhere, others may touch the cluster, and the spec may be edited. */
module Machine {
  import opened Lists
  import opened Options
  import opened ObjectNames
  import opened PluginPorts
  import opened Resolve
  import opened Cluster
  import opened Manifests
  import opened Status
  import opened StatusLaws
  import opened Credentials
  import opened Plan

  // ---- State ----

  /** `Working`: item number `pc` of `plan`, with the reads it has done so far. `Reporting`: patchStatus. */
  datatype Run =
    | Idle
    | Working(d: Desired, generation: nat, plan: seq<Item>, pc: nat, seen: seq<Slot>, leftover: bool)
    | Reporting(d: Desired, generation: nat, leftover: bool, ending: Ending, seen: seq<Slot>)

  /** `finished` records, for each ensureAll that succeeded, its generation and whether it saw a leftover
      StatefulSet; `reports` records every status written. Neither is read by a step. */
  datatype Sys = Sys(store: Store, spec: ApmeSpec, generation: nat, status: Status, run: Run,
                     finished: seq<(nat, bool)>, reports: seq<Report>)

  // ---- One call ----

  /** A lost call took effect, but the operator sees an error. */
  datatype Fault = NoFault | Refused(forbidden: bool, customHost: bool) | Lost

  /** What the surroundings contribute to one step of the operator. */
  datatype Input = Input(fault: Fault, material: Material, lingers: bool, imagePull: bool, now: nat)

  function FaultError(f: Fault): ApiError {
    if f.Refused? && f.forbidden then Forbidden(f.customHost) else Unavailable
  }

  predicate Writes(a: Action) { a.Patch? || a.Create? || a.Update? || a.Delete? }

  /** The API server's answer to a write. */
  function Answer(uid: Uid, s: Slot, a: Action, lingers: bool): Reply
    requires Writes(a)
  {
    match a
    case Patch(_, payload) => Patched(s, uid, payload)
    case Create(_, payload) => Created(s, uid, payload)
    case Update(_, version, changes) => Updated(s, version, changes)
    case Delete(_) => Deleted(s, lingers)
    case _ => Done(s)
  }

  function StoreAfter(uid: Uid, store: Store, a: Action, i: Input): Store {
    if !Writes(a) || i.fault.Refused? then store
    else
      var r := Answer(uid, At(store, a.key), a, i.lingers);
      if r.Done? then store[a.key := r.slot] else store
  }

  /** The error the operator sees, if any. */
  function ErrorSeen(uid: Uid, store: Store, a: Action, i: Input): Option<ApiError> {
    if !a.Get? && !Writes(a) then None
    else if i.fault != NoFault then Some(FaultError(i.fault))
    else if !Writes(a) then None
    else
      var r := Answer(uid, At(store, a.key), a, i.lingers);
      if r.Done? then None else Some(r.error)
  }

  // ---- Steps of ensureAll ----

  ghost function CurrentAction(inst: Instance, s: Sys, i: Input): Action {
    if s.run.Working? && s.run.pc < |s.run.plan|
    then NextAction(inst, s.run.d, s.run.plan[s.run.pc], s.run.seen, i.material)
    else Finish(false)
  }

  /** fail: it reports no leftover. */
  function Failing(r: Run, ending: Ending): Run
    requires r.Working?
  {
    Reporting(r.d, r.generation, false, ending, [])
  }

  function Tolerates(t: Item, e: ApiError): bool { Unwants(t) && e.NotFound? }

  /** The run after a step of item `t` did `a`, saw `error`, and, for a read, got `reply`. */
  function RunAfter(r: Run, t: Item, a: Action, error: Option<ApiError>, reply: Slot): Run
    requires r.Working?
  {
    match a
    case Finish(l) => Working(r.d, r.generation, r.plan, r.pc + 1, [], r.leftover || l)
    case Fail(ending) => Failing(r, ending)
    case Get(_) =>
      if error.None? then Working(r.d, r.generation, r.plan, r.pc, r.seen + [reply], r.leftover)
      else if t.SeeLeftover? then Working(r.d, r.generation, r.plan, r.pc, r.seen + [EMPTY], r.leftover)
      else Failing(r, EndingOf(r.d, t, error.value))
    case _ =>
      if error.None? || Tolerates(t, error.value) then Working(r.d, r.generation, r.plan, r.pc + 1, [], r.leftover)
      else Failing(r, EndingOf(r.d, t, error.value))
  }

  ghost function WorkStep(inst: Instance, s: Sys, i: Input): Sys
    requires s.run.Working? && s.run.pc < |s.run.plan|
  {
    var a := CurrentAction(inst, s, i);
    var reply := if a.Get? then At(s.store, a.key) else EMPTY;
    s.(store := StoreAfter(inst.uid, s.store, a, i),
       run := RunAfter(s.run, s.run.plan[s.run.pc], a, ErrorSeen(inst.uid, s.store, a, i), reply))
  }

  /** All items are done. */
  ghost function EndWork(s: Sys): Sys
    requires s.run.Working?
  {
    s.(run := Reporting(s.run.d, s.run.generation, s.run.leftover, Fine, []),
       finished := s.finished + [(s.run.generation, s.run.leftover)])
  }

  // ---- Steps of patchStatus ----

  function RouteShown(d: Desired): Key { Key(Route, d.name + if d.components.ui then "-ui" else "-api") }

  predicate ShowsRoute(inst: Instance, d: Desired) { d.exposure.routeEnabled && inst.routeAPI }

  function DatabaseObject(d: Desired): Key {
    if d.database.mode == External then Key(Secret, d.database.secretName) else Key(StatefulSet, d.name + "-postgres")
  }

  /** What publicURL, databaseReady and deploymentReady read, in turn. */
  function ReportKeys(inst: Instance, d: Desired): seq<Key> {
    When(ShowsRoute(inst, d), [RouteShown(d)]) + [DatabaseObject(d), Key(Deployment, d.name)]
  }

  predicate Replicated(s: Slot) {
    s.obj.Some? && ReadyReplicas in s.obj.value.fields && s.obj.value.fields[ReadyReplicas].Count?
    && s.obj.value.fields[ReadyReplicas].n >= 1
  }

  /** publicURL: the admitted host goes before the spec's; the Ingress host is the fallback. */
  function PublicURL(d: Desired, route: Slot): string {
    var live := if route.obj.None? then ""
                else if TextOf(route.obj.value.fields, AdmittedHost) != "" then TextOf(route.obj.value.fields, AdmittedHost)
                else TextOf(route.obj.value.fields, Host);
    if live != "" then "https://" + live
    else if d.exposure.ingressEnabled && d.exposure.ingressHost != "" then "https://" + d.exposure.ingressHost
    else ""
  }

  function Observe(inst: Instance, d: Desired, seen: seq<Slot>, imagePull: bool): Observed
    requires |seen| == |ReportKeys(inst, d)|
  {
    var database, deployment := seen[|seen| - 2], seen[|seen| - 1];
    Observed(
      if d.database.mode == External then database.obj.Some? else Replicated(database),
      Replicated(deployment),
      imagePull && deployment.obj.Some? && !Replicated(deployment),
      PublicURL(d, if ShowsRoute(inst, d) then seen[0] else EMPTY))
  }

  ghost function ReportStep(inst: Instance, s: Sys, i: Input): Sys
    requires s.run.Reporting?
  {
    var keys := ReportKeys(inst, s.run.d);
    var n := |s.run.seen|;
    if n < |keys| then
      var reply := if i.fault == NoFault then At(s.store, keys[n]) else EMPTY;
      s.(run := Reporting(s.run.d, s.run.generation, s.run.leftover, s.run.ending, s.run.seen + [reply]))
    else if i.fault.Refused? || n > |keys| then s.(run := Idle)
    else
      var r := Report(s.run.d, s.run.generation, s.run.leftover, s.run.ending,
                      Observe(inst, s.run.d, s.run.seen, i.imagePull), i.now);
      s.(status := Apply(s.status, r), run := Idle, reports := s.reports + [r])
  }

  ghost function OperatorStep(inst: Instance, s: Sys, i: Input): Sys {
    if s.run.Idle? then s
    else if s.run.Reporting? then ReportStep(inst, s, i)
    else if s.run.pc < |s.run.plan| then WorkStep(inst, s, i)
    else EndWork(s)
  }

  /** Reconcile reads the resource and resolves it. */
  ghost function BeginStep(inst: Instance, s: Sys): Sys {
    var d := IntentOf(inst, s.spec);
    s.(run := Working(d, s.generation, Items(inst, d), 0, [], false))
  }

  // ---- The surroundings ----

  /** Fields of a controlled object that others may change: its status, and a Route's host while it has none. */
  predicate Kept(o: Obj, f: Field) {
    f != ReadyReplicas && f != AdmittedHost && (f == Host ==> TextOf(o.fields, Host) != "")
  }

  predicate SameField(p: Payload, q: Payload, f: Field) { (f in p <==> f in q) && (f in p ==> p[f] == q[f]) }

  /** An incarnation is as old as some version of its name. */
  predicate WellBorn(s: Slot) { s.obj.Some? ==> s.obj.value.born <= s.version }

  /** What others may do to one object. They leave this instance's objects alone, except that they report status,
      give a Route a host when it has none, and delete Routes; and they create no object in its name. */
  ghost predicate Bystander(name: string, uid: Uid, k: Key, s: Slot, s': Slot) {
    && s'.version >= s.version
    && (s'.version == s.version ==> s' == s)
    && WellBorn(s')
    && (s.obj.None? && s'.obj.Some? ==> !ControlledBy(s'.obj.value, uid) && s'.obj.value.born > s.version)
    && (s.obj.Some? && s'.obj.None? ==> k.kind == Route || !Generated(name, k))
    && (s.obj.Some? && s'.obj.Some? && s.obj.value.born == s'.obj.value.born ==>
          SameIncarnation(uid, s.obj.value, s'.obj.value))
    && (s.obj.Some? && s'.obj.Some? && s.obj.value.born != s'.obj.value.born ==>
          !ControlledBy(s'.obj.value, uid) && s'.obj.value.born > s.version && (k.kind == Route || !Generated(name, k)))
  }

  ghost predicate SameIncarnation(uid: Uid, o: Obj, o': Obj) {
    && (ControlledBy(o, uid) <==> ControlledBy(o', uid))
    && (o.deleting ==> o'.deleting)
    && (ControlledBy(o, uid) ==>
          o'.applied == o.applied && forall f :: Kept(o, f) ==> SameField(o.fields, o'.fields, f))
  }

  ghost predicate Bystanders(inst: Instance, store: Store, store': Store) {
    forall k :: Bystander(inst.name, inst.uid, k, At(store, k), At(store', k))
  }

  // ---- Steps and behaviours ----

  datatype Label = Begin | Operate(input: Input) | Crash | Others(store: Store) | Edit(spec: ApmeSpec)

  predicate Letters(s: string) { forall c :: c in s ==> IsLetter(c) }

  /** The random source draws from the token alphabet. */
  predicate Drawn(m: Material) {
    Letters(m.password) && Letters(m.token) && m.token != "" && m.crt != "" && m.key != "" && m.ca != ""
  }

  ghost predicate Enabled(inst: Instance, s: Sys, l: Label) {
    match l
    case Begin => s.run.Idle?
    case Operate(i) => !s.run.Idle? && Drawn(i.material)
    case Crash => true
    case Others(store) => Bystanders(inst, s.store, store)
    case Edit(spec) => Admitted(spec.plugins)
  }

  ghost function Next(inst: Instance, s: Sys, l: Label): Sys {
    match l
    case Begin => BeginStep(inst, s)
    case Operate(i) => OperatorStep(inst, s, i)
    case Crash => s.(run := Idle)
    case Others(store) => s.(store := store)
    case Edit(spec) => s.(spec := spec, generation := s.generation + 1)
  }

  ghost function RunTo(inst: Instance, s: Sys, ls: seq<Label>): Sys
    decreases |ls|
  {
    if |ls| == 0 then s else Next(inst, RunTo(inst, s, ls[..|ls| - 1]), ls[|ls| - 1])
  }

  ghost predicate Possible(inst: Instance, s: Sys, ls: seq<Label>)
    decreases |ls|
  {
    |ls| == 0 || (Possible(inst, s, ls[..|ls| - 1]) && Enabled(inst, RunTo(inst, s, ls[..|ls| - 1]), ls[|ls| - 1]))
  }
}
