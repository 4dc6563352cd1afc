/** Routes converge: with a fixed intent, no rival controller and deletions that finish, every start state leads to
    the desired one, and then nothing changes any more. */
module RouteConvergence {
  import opened Resolve
  import opened Cluster
  import opened Plan
  import opened Machine
  import opened Reach
  import opened Incarnations
  import opened RouteHosts

  /** applyOrRecreateRoute, or deleteOwnedRoute, on one Route when no call fails and no one interferes. */
  function RouteAfter(inst: Instance, d: Desired, t: Item, s: Slot, lingers: bool): Slot
    requires OnRoute(t)
  {
    var a := RouteAction(inst, d, t, s);
    if Writes(a) && Answer(inst.uid, s, a, lingers).Done? then Answer(inst.uid, s, a, lingers).slot else s
  }

  predicate NoRival(uid: Uid, s: Slot) { s.obj.Some? ==> s.obj.value.controller.None? || ControlledBy(s.obj.value, uid) }

  /** Live and the operator's. */
  predicate Ours(uid: Uid, s: Slot) { s.obj.Some? && !s.obj.value.deleting && ControlledBy(s.obj.value, uid) }

  predicate Deleting(s: Slot) { s.obj.Some? && s.obj.value.deleting }

  /** The Route is as desired: its path, its annotation, and its host when a custom one is asked for. */
  predicate Meets(uid: Uid, desired: Payload, s: Slot) {
    && Ours(uid, s)
    && TextOf(s.obj.value.fields, Path) == TextOf(desired, Path)
    && DesiredHost in s.obj.value.fields && TextOf(s.obj.value.fields, DesiredHost) == TextOf(desired, DesiredHost)
    && (TextOf(desired, Host) != "" ==> HostOf(s.obj.value) == TextOf(desired, Host))
  }

  /** Another pass changes nothing, not even the version. */
  predicate Quiet(inst: Instance, d: Desired, t: Item, s: Slot)
    requires OnRoute(t)
  {
    RouteAfter(inst, d, t, s, true) == s && RouteAfter(inst, d, t, s, false) == s
  }

  // ---- The measure ----

  /** How far a wanted Route is from converged: adopted, stale, deleting, absent, unannotated, then bookkeeping
      without and with a host. */
  function WantedRank(inst: Instance, d: Desired, t: Item, s: Slot): nat
    requires Wants(t)
  {
    if s.obj.None? then 5
    else if Deleting(s) then 6
    else if !ControlledBy(s.obj.value, inst.uid) then 8
    else if NeedsRecreate(s.obj.value.fields, WantedPayload(d, t)) then 7
    else if !Meets(inst.uid, WantedPayload(d, t), s) then 4
    else (if Quiet(inst, d, t, s) then 0 else 1) + (if HostOf(s.obj.value) == "" then 2 else 0)
  }

  function UnwantedRank(inst: Instance, s: Slot): nat {
    if s.obj.None? || !ControlledBy(s.obj.value, inst.uid) then 0
    else if Deleting(s) then 1
    else 2
  }

  function RouteRank(inst: Instance, d: Desired, t: Item, s: Slot): nat
    requires OnRoute(t)
  {
    if Wants(t) then WantedRank(inst, d, t, s) else UnwantedRank(inst, s)
  }

  // ---- One apply ----

  /** What a Route builder's payload is like. */
  predicate Proper(desired: Payload) {
    && RouteShape(desired) && TextOf(desired, Host) == TextOf(desired, DesiredHost)
    && (Path in desired <==> TextOf(desired, Path) != "") && (Host in desired <==> TextOf(desired, Host) != "")
    && (Host in desired ==> desired[Host].Text?) && (Path in desired ==> desired[Path].Text?)
  }

  lemma RoutePayloadFields(d: Desired, t: Item)
    requires Wants(t)
    ensures Proper(WantedPayload(d, t)) && TextOf(WantedPayload(d, t), Host) == d.exposure.routeHost
  {
  }

  /** Applying to a Route that is fit to keep its name: it meets the desire, and keeps its host or gets the custom one. */
  lemma FitApply(uid: Uid, s: Slot, desired: Payload)
    requires Proper(desired) && Ours(uid, s) && !NeedsRecreate(s.obj.value.fields, desired)
    ensures var r := Patched(s, uid, PreserveHost(s.obj.value.fields, desired));
            && r.Done? && Meets(uid, desired, r.slot)
            && HostOf(r.slot.obj.value) == if TextOf(desired, Host) != "" then TextOf(desired, Host) else HostOf(s.obj.value)
  {
    var p := PreserveHost(s.obj.value.fields, desired);
    PatchedFields(s, uid, p, Host);
    PatchedFields(s, uid, p, Path);
    PatchedFields(s, uid, p, DesiredHost);
  }

  lemma MeetsIsFit(uid: Uid, s: Slot, desired: Payload)
    requires Proper(desired) && Meets(uid, desired, s)
    ensures !NeedsRecreate(s.obj.value.fields, desired)
  {
  }

  /** And applying once more is no change. */
  lemma FitApplyTwice(uid: Uid, s: Slot, desired: Payload)
    requires Proper(desired) && Ours(uid, s) && !NeedsRecreate(s.obj.value.fields, desired)
    ensures var r := Patched(s, uid, PreserveHost(s.obj.value.fields, desired));
            r.Done? && Patched(r.slot, uid, PreserveHost(r.slot.obj.value.fields, desired)) == r
  {
    FitApply(uid, s, desired);
    var p := PreserveHost(s.obj.value.fields, desired);
    var r := Patched(s, uid, p);
    assert PreserveHost(r.slot.obj.value.fields, desired) == p;
    PatchedTwice(s, uid, p);
  }

  lemma FitPass(inst: Instance, d: Desired, t: Item, s: Slot, lingers: bool)
    requires Wants(t) && Ours(inst.uid, s) && !NeedsRecreate(s.obj.value.fields, WantedPayload(d, t))
    ensures var desired, n := WantedPayload(d, t), RouteAfter(inst, d, t, s, lingers);
            && Meets(inst.uid, desired, n) && RouteAfter(inst, d, t, n, true) == n && RouteAfter(inst, d, t, n, false) == n
            && HostOf(n.obj.value) == (if TextOf(desired, Host) != "" then TextOf(desired, Host) else HostOf(s.obj.value))
            && n.obj.value.born == s.obj.value.born
  {
    var desired := WantedPayload(d, t);
    RoutePayloadFields(d, t);
    FitApply(inst.uid, s, desired);
    FitApplyTwice(inst.uid, s, desired);
    MeetsIsFit(inst.uid, Patched(s, inst.uid, PreserveHost(s.obj.value.fields, desired)).slot, desired);
  }

  /** Creating the Route: it meets the desire at once. */
  lemma CreatePass(inst: Instance, d: Desired, t: Item, s: Slot, lingers: bool)
    requires Wants(t) && s.obj.None?
    ensures var n := RouteAfter(inst, d, t, s, lingers);
            Meets(inst.uid, WantedPayload(d, t), n) && RouteAfter(inst, d, t, n, true) == n && RouteAfter(inst, d, t, n, false) == n
  {
    var desired := WantedPayload(d, t);
    RoutePayloadFields(d, t);
    var n := Patched(s, inst.uid, desired).slot;
    assert n.obj.value.fields == desired && PreserveHost(desired, desired) == desired;
    MeetsIsFit(inst.uid, n, desired);
    PatchedTwice(s, inst.uid, desired);
  }

  // ---- Passes go down ----

  lemma WantedPassDecreases(inst: Instance, d: Desired, t: Item, s: Slot, lingers: bool)
    requires Wants(t) && NoRival(inst.uid, s) && !Deleting(s) && !Quiet(inst, d, t, s)
    ensures WantedRank(inst, d, t, RouteAfter(inst, d, t, s, lingers)) < WantedRank(inst, d, t, s)
  {
    var desired := WantedPayload(d, t);
    RoutePayloadFields(d, t);
    if s.obj.None? {
      CreatePass(inst, d, t, s, lingers);
      MeetsIsFit(inst.uid, RouteAfter(inst, d, t, s, lingers), desired);
    } else if ControlledBy(s.obj.value, inst.uid) && !NeedsRecreate(s.obj.value.fields, desired) {
      FitPass(inst, d, t, s, lingers);
      MeetsIsFit(inst.uid, RouteAfter(inst, d, t, s, lingers), desired);
    } else {
      UnfitPassDecreases(inst, d, t, s, lingers);
    }
  }

  lemma UnfitPassDecreases(inst: Instance, d: Desired, t: Item, s: Slot, lingers: bool)
    requires Wants(t) && NoRival(inst.uid, s) && s.obj.Some? && !Deleting(s)
    requires ControlledBy(s.obj.value, inst.uid) ==> NeedsRecreate(s.obj.value.fields, WantedPayload(d, t))
    ensures WantedRank(inst, d, t, RouteAfter(inst, d, t, s, lingers)) < WantedRank(inst, d, t, s)
  {
    var n := RouteAfter(inst, d, t, s, lingers);
    if ControlledBy(s.obj.value, inst.uid) {
      assert n.obj.None? || Deleting(n);
    } else {
      assert n.obj.Some? && ControlledBy(n.obj.value, inst.uid) && !Deleting(n);
    }
  }

  /** A pass that finds work to do brings the Route strictly closer, unless it waits for a deletion to finish. */
  lemma PassDecreases(inst: Instance, d: Desired, t: Item, s: Slot, lingers: bool)
    requires OnRoute(t) && NoRival(inst.uid, s)
    ensures Quiet(inst, d, t, s) || Deleting(s)
            || RouteRank(inst, d, t, RouteAfter(inst, d, t, s, lingers)) < RouteRank(inst, d, t, s)
    ensures NoRival(inst.uid, RouteAfter(inst, d, t, s, lingers))
    ensures Deleting(s) ==> RouteAfter(inst, d, t, s, lingers) == s || RouteAfter(inst, d, t, s, lingers).obj.None?
  {
    if Wants(t) && !Deleting(s) && !Quiet(inst, d, t, s) { WantedPassDecreases(inst, d, t, s, lingers); }
  }

  // ---- What happens between passes ----

  /** OpenShift finishes a deletion, gives a Route a host when it has none, or reports status. */
  ghost predicate Settles(s: Slot, s': Slot) {
    || s' == s
    || (Deleting(s) && s'.obj.None?)
    || (s.obj.Some? && s'.obj.Some?
        && s'.obj.value == s.obj.value.(fields := s'.obj.value.fields)
        && forall f :: Kept(s.obj.value, f) ==> SameField(s.obj.value.fields, s'.obj.value.fields, f))
  }

  /** A Route that meets the desire and has a host: a pass is quiet exactly when the bookkeeping is done, and that
      does not depend on what its status says. */
  lemma QuietMeets(inst: Instance, d: Desired, t: Item, s: Slot)
    requires Wants(t) && Meets(inst.uid, WantedPayload(d, t), s)
    ensures Quiet(inst, d, t, s) <==>
            Patched(s, inst.uid, PreserveHost(s.obj.value.fields, WantedPayload(d, t))) == Done(s)
  {
    RoutePayloadFields(d, t);
    MeetsIsFit(inst.uid, s, WantedPayload(d, t));
  }

  lemma PatchQuiet(s: Slot, uid: Uid, payload: Payload)
    requires s.obj.Some? && ControlledBy(s.obj.value, uid)
    ensures Patched(s, uid, payload) == Done(s) <==>
            s.obj.value.applied == payload.Keys
            && forall f :: f in payload ==> f in s.obj.value.fields && s.obj.value.fields[f] == payload[f]
  {
    var o := s.obj.value;
    var fields := (o.fields - (o.applied - payload.Keys)) + payload;
    if o.applied == payload.Keys {
      assert o.applied - payload.Keys == {};
      if forall f :: f in payload ==> f in o.fields && o.fields[f] == payload[f] {
        assert fields == o.fields;
      } else {
        var f :| f in payload && !(f in o.fields && o.fields[f] == payload[f]);
        assert fields[f] == payload[f];
      }
    }
  }

  lemma SettlesKeepsQuiet(inst: Instance, d: Desired, t: Item, s: Slot, s': Slot)
    requires Wants(t) && Meets(inst.uid, WantedPayload(d, t), s) && Settles(s, s')
    requires HostOf(s.obj.value) != "" && Quiet(inst, d, t, s)
    ensures Meets(inst.uid, WantedPayload(d, t), s') && Quiet(inst, d, t, s')
  {
    var desired := WantedPayload(d, t);
    SettlesKeepsMeets(inst, d, t, s, s');
    QuietMeets(inst, d, t, s);
    QuietMeets(inst, d, t, s');
    RoutePayloadFields(d, t);
    var o, o' := s.obj.value, s'.obj.value;
    assert Kept(o, Host);
    var p := PreserveHost(o.fields, desired);
    assert PreserveHost(o'.fields, desired) == p;
    PatchQuiet(s, inst.uid, p);
    PatchQuiet(s', inst.uid, p);
    if s' != s {
      forall f | f in p
        ensures f in o'.fields && o'.fields[f] == p[f]
      {
        RouteFieldsKept(d, t, f);
        assert SameField(o.fields, o'.fields, f);
      }
    }
  }

  lemma RouteFieldsKept(d: Desired, t: Item, f: Field)
    requires Wants(t) && (f in WantedPayload(d, t) || f == Host)
    ensures f != ReadyReplicas && f != AdmittedHost
  {
  }

  lemma SettlesKeepsMeets(inst: Instance, d: Desired, t: Item, s: Slot, s': Slot)
    requires Wants(t) && Meets(inst.uid, WantedPayload(d, t), s) && Settles(s, s')
    ensures Meets(inst.uid, WantedPayload(d, t), s')
    ensures HostOf(s.obj.value) != "" ==> HostOf(s'.obj.value) == HostOf(s.obj.value)
  {
    if s' != s {
      var o, o' := s.obj.value, s'.obj.value;
      assert Kept(o, Path) && Kept(o, DesiredHost);
      assert SameField(o.fields, o'.fields, Path) && SameField(o.fields, o'.fields, DesiredHost);
      if HostOf(o) != "" {
        assert Kept(o, Host) && SameField(o.fields, o'.fields, Host);
      }
    }
  }

  /** A Route that is not as desired does not get further away. */
  lemma SettlesKeepsFit(uid: Uid, s: Slot, s': Slot, desired: Payload)
    requires Proper(desired) && Ours(uid, s) && Settles(s, s')
    requires !NeedsRecreate(s.obj.value.fields, desired)
    ensures Ours(uid, s') && !NeedsRecreate(s'.obj.value.fields, desired)
  {
    if s' != s {
      var o, o' := s.obj.value, s'.obj.value;
      assert Kept(o, Path) && Kept(o, DesiredHost);
      assert SameField(o.fields, o'.fields, Path) && SameField(o.fields, o'.fields, DesiredHost);
      if HostOf(o) != "" {
        assert Kept(o, Host) && SameField(o.fields, o'.fields, Host);
      }
    }
  }

  lemma WantedSettles(inst: Instance, d: Desired, t: Item, s: Slot, s': Slot)
    requires Wants(t) && Settles(s, s')
    ensures WantedRank(inst, d, t, s') <= WantedRank(inst, d, t, s)
  {
    var desired := WantedPayload(d, t);
    RoutePayloadFields(d, t);
    if s' != s && Ours(inst.uid, s) && !NeedsRecreate(s.obj.value.fields, desired) {
      SettlesKeepsFit(inst.uid, s, s', desired);
      if Meets(inst.uid, desired, s) {
        SettlesKeepsMeets(inst, d, t, s, s');
        if HostOf(s.obj.value) != "" && Quiet(inst, d, t, s) { SettlesKeepsQuiet(inst, d, t, s, s'); }
        if HostOf(s.obj.value) == "" { SettlesBookkeeping(inst, d, t, s, s'); }
      }
    }
  }

  /** Without a host, a Route whose bookkeeping is not done keeps a rank above one whose is. */
  lemma SettlesBookkeeping(inst: Instance, d: Desired, t: Item, s: Slot, s': Slot)
    requires Wants(t) && Settles(s, s') && Meets(inst.uid, WantedPayload(d, t), s) && HostOf(s.obj.value) == ""
    requires Meets(inst.uid, WantedPayload(d, t), s')
    ensures HostOf(s'.obj.value) == "" && Quiet(inst, d, t, s) ==> Quiet(inst, d, t, s')
  {
    var desired := WantedPayload(d, t);
    RoutePayloadFields(d, t);
    if s' != s && HostOf(s'.obj.value) == "" && Quiet(inst, d, t, s) {
      QuietMeets(inst, d, t, s);
      QuietMeets(inst, d, t, s');
      PatchQuiet(s, inst.uid, desired);
      PatchQuiet(s', inst.uid, desired);
      forall f | f in desired
        ensures f in s'.obj.value.fields && s'.obj.value.fields[f] == desired[f]
      {
        RouteFieldsKept(d, t, f);
        assert SameField(s.obj.value.fields, s'.obj.value.fields, f);
      }
    }
  }

  lemma SettlesNoRise(inst: Instance, d: Desired, t: Item, s: Slot, s': Slot)
    requires OnRoute(t) && Settles(s, s') && NoRival(inst.uid, s)
    ensures RouteRank(inst, d, t, s') <= RouteRank(inst, d, t, s) && NoRival(inst.uid, s')
  {
    if Wants(t) { WantedSettles(inst, d, t, s, s'); }
  }

  // ---- What is at rest ----

  /** What a pass finds when there is nothing for it to do. A wanted Route is waited for, or another controller's, or
      the operator's and fit, with every field of the payload applied and nothing else; an unwanted one is not the
      operator's. */
  ghost predicate AtRest(inst: Instance, d: Desired, t: Item, s: Slot)
    requires OnRoute(t)
  {
    if Unwants(t) then s.obj.None? || !ControlledBy(s.obj.value, inst.uid)
    else
      s.obj.Some? && (Deleting(s) || (s.obj.value.controller.Some? && !ControlledBy(s.obj.value, inst.uid))
                      || (ControlledBy(s.obj.value, inst.uid) && Stamped(s.obj.value, WantedPayload(d, t))))
  }

  /** Fit to keep its name, and with nothing left to apply. */
  ghost predicate Stamped(o: Obj, desired: Payload) {
    var payload := PreserveHost(o.fields, desired);
    && !NeedsRecreate(o.fields, desired)
    && o.applied == payload.Keys && forall f :: f in payload ==> f in o.fields && o.fields[f] == payload[f]
  }

  /** A pass leaves a Route as it is exactly then. */
  lemma QuietIffAtRest(inst: Instance, d: Desired, t: Item, s: Slot)
    requires OnRoute(t)
    ensures Quiet(inst, d, t, s) <==> AtRest(inst, d, t, s)
  {
    if Wants(t) && s.obj.Some? && !Deleting(s) { WantedQuiet(inst, d, t, s); }
  }

  lemma WantedQuiet(inst: Instance, d: Desired, t: Item, s: Slot)
    requires Wants(t) && s.obj.Some? && !Deleting(s)
    ensures Quiet(inst, d, t, s) <==>
            (s.obj.value.controller.Some? && !ControlledBy(s.obj.value, inst.uid))
            || (ControlledBy(s.obj.value, inst.uid) && Stamped(s.obj.value, WantedPayload(d, t)))
  {
    var desired := WantedPayload(d, t);
    if ControlledBy(s.obj.value, inst.uid) && !NeedsRecreate(s.obj.value.fields, desired) {
      PatchQuiet(s, inst.uid, PreserveHost(s.obj.value.fields, desired));
    }
  }

  // ---- Rounds ----

  /** One reconcile's pass and what happens until the next one. */
  ghost predicate Round(inst: Instance, d: Desired, t: Item, s: Slot, lingers: bool, s': Slot)
    requires OnRoute(t)
  {
    Settles(RouteAfter(inst, d, t, s, lingers), s')
  }

  /** `ss` are the states before each round, `lingers` tells for each round whether a deletion takes time. */
  ghost predicate Rounds(inst: Instance, d: Desired, t: Item, ss: seq<Slot>, lingers: seq<bool>)
    requires OnRoute(t)
  {
    |ss| == |lingers| + 1 && forall i :: 0 <= i < |lingers| ==> Round(inst, d, t, ss[i], lingers[i], ss[i + 1])
  }

  /** A round all through which the Route is being deleted: there is nothing to do but wait. */
  predicate Waits(s: Slot, s': Slot) { Deleting(s) && Deleting(s') }

  /** How many of the first `n` rounds do not just wait for a deletion. */
  function Active(ss: seq<Slot>, n: nat): nat
    requires n < |ss|
  {
    if n == 0 then 0 else Active(ss, n - 1) + if Waits(ss[n - 1], ss[n]) then 0 else 1
  }

  /** The highest rank of a Route that is as desired. */
  function DoneRank(t: Item): nat { if Wants(t) then 3 else 0 }

  /** A wanted Route is as desired, an unwanted one of the operator is gone. */
  predicate AsDesired(inst: Instance, d: Desired, t: Item, s: Slot)
    requires OnRoute(t)
  {
    if Wants(t) then Meets(inst.uid, WantedPayload(d, t), s) else s.obj.None? || !ControlledBy(s.obj.value, inst.uid)
  }

  lemma DoneMeets(inst: Instance, d: Desired, t: Item, s: Slot)
    requires OnRoute(t)
    ensures RouteRank(inst, d, t, s) <= DoneRank(t) <==> AsDesired(inst, d, t, s)
  {
    if Wants(t) {
      RoutePayloadFields(d, t);
      if Meets(inst.uid, WantedPayload(d, t), s) { MeetsIsFit(inst.uid, s, WantedPayload(d, t)); }
    }
  }

  lemma NotDoneNotQuiet(inst: Instance, d: Desired, t: Item, s: Slot)
    requires OnRoute(t) && NoRival(inst.uid, s) && RouteRank(inst, d, t, s) > DoneRank(t) && !Deleting(s)
    ensures !Quiet(inst, d, t, s)
  {
    DoneMeets(inst, d, t, s);
    if Wants(t) && Ours(inst.uid, s) && !NeedsRecreate(s.obj.value.fields, WantedPayload(d, t)) {
      FitPass(inst, d, t, s, true);
    }
  }

  /** A deletion that is over, whoever owned the Route, brings it closer. */
  lemma DeletionDecreases(inst: Instance, d: Desired, t: Item, s: Slot, lingers: bool, s': Slot)
    requires OnRoute(t) && NoRival(inst.uid, s) && Round(inst, d, t, s, lingers, s')
    requires Deleting(s) && !Deleting(s') && RouteRank(inst, d, t, s) > DoneRank(t)
    ensures RouteRank(inst, d, t, s') < RouteRank(inst, d, t, s)
  {
    PassDecreases(inst, d, t, s, lingers);
  }

  /** Each round that starts away from the desired state and does not just wait ends closer to it, as does each that
      changes the Route, and none ends further away. */
  lemma RoundDecreases(inst: Instance, d: Desired, t: Item, s: Slot, lingers: bool, s': Slot)
    requires OnRoute(t) && NoRival(inst.uid, s) && Round(inst, d, t, s, lingers, s')
    ensures NoRival(inst.uid, s')
    ensures RouteRank(inst, d, t, s') <= RouteRank(inst, d, t, s)
    ensures (RouteRank(inst, d, t, s) > DoneRank(t) && !Waits(s, s')) || RouteAfter(inst, d, t, s, lingers) != s ==>
              RouteRank(inst, d, t, s') < RouteRank(inst, d, t, s)
  {
    PassDecreases(inst, d, t, s, lingers);
    SettlesNoRise(inst, d, t, RouteAfter(inst, d, t, s, lingers), s');
    if RouteRank(inst, d, t, s) > DoneRank(t) && !Waits(s, s') {
      if Deleting(s) { DeletionDecreases(inst, d, t, s, lingers, s'); } else { NotDoneNotQuiet(inst, d, t, s); }
    }
  }

  /** A Route that is as desired is never deleted or moved again. */
  lemma DoneStays(inst: Instance, d: Desired, t: Item, s: Slot, lingers: bool)
    requires OnRoute(t) && NoRival(inst.uid, s) && AsDesired(inst, d, t, s)
    ensures !RouteAction(inst, d, t, s).Delete?
    ensures Wants(t) ==> RouteAfter(inst, d, t, s, lingers).obj.Some?
                         && RouteAfter(inst, d, t, s, lingers).obj.value.born == s.obj.value.born
                         && HostOf(RouteAfter(inst, d, t, s, lingers).obj.value) == HostOf(s.obj.value)
    ensures Unwants(t) ==> RouteAfter(inst, d, t, s, lingers) == s
  {
    if Wants(t) {
      RoutePayloadFields(d, t);
      MeetsIsFit(inst.uid, s, WantedPayload(d, t));
      FitPass(inst, d, t, s, lingers);
    }
  }

  /** One pass over a Route that is as desired does the last of the bookkeeping: it leaves the Route as desired, and
      at rest. */
  lemma DoneComesToRest(inst: Instance, d: Desired, t: Item, s: Slot, lingers: bool)
    requires OnRoute(t) && AsDesired(inst, d, t, s)
    ensures AsDesired(inst, d, t, RouteAfter(inst, d, t, s, lingers))
    ensures AtRest(inst, d, t, RouteAfter(inst, d, t, s, lingers))
  {
    if Wants(t) {
      RoutePayloadFields(d, t);
      MeetsIsFit(inst.uid, s, WantedPayload(d, t));
      FitPass(inst, d, t, s, lingers);
    }
    QuietIffAtRest(inst, d, t, RouteAfter(inst, d, t, s, lingers));
  }

  /** The rank goes down by one in each round that does not wait, until the Route is as desired. */
  lemma {:induction false} RankAfterRounds(inst: Instance, d: Desired, t: Item, ss: seq<Slot>, lingers: seq<bool>, n: nat)
    requires OnRoute(t) && Rounds(inst, d, t, ss, lingers) && NoRival(inst.uid, ss[0]) && n <= |lingers|
    ensures NoRival(inst.uid, ss[n])
    ensures RouteRank(inst, d, t, ss[n]) <= DoneRank(t)
         || RouteRank(inst, d, t, ss[n]) + Active(ss, n) <= RouteRank(inst, d, t, ss[0])
  {
    if n > 0 {
      RankAfterRounds(inst, d, t, ss, lingers, n - 1);
      RoundDecreases(inst, d, t, ss[n - 1], lingers[n - 1], ss[n]);
    }
  }

  /** From any state without a rival controller, however long deletions take: once five rounds have done more than
      wait for a deletion, and ever after, a wanted Route has the desired path and annotation and any custom host, no
      unwanted Route of the operator remains, and none is deleted. */
  lemma RoutesConverge(inst: Instance, d: Desired, t: Item, ss: seq<Slot>, lingers: seq<bool>, n: nat)
    requires OnRoute(t) && Rounds(inst, d, t, ss, lingers) && NoRival(inst.uid, ss[0])
    requires n <= |lingers| && Active(ss, n) >= 5
    ensures AsDesired(inst, d, t, ss[n]) && !RouteAction(inst, d, t, ss[n]).Delete?
  {
    RankAfterRounds(inst, d, t, ss, lingers, n);
    RankBound(inst, d, t, ss[0]);
    DoneMeets(inst, d, t, ss[n]);
    DoneStays(inst, d, t, ss[n], true);
  }

  /** So if the Route is not yet as desired, all but four rounds have been spent waiting. */
  lemma OtherwiseWaiting(inst: Instance, d: Desired, t: Item, ss: seq<Slot>, lingers: seq<bool>, n: nat)
    requires OnRoute(t) && Rounds(inst, d, t, ss, lingers) && NoRival(inst.uid, ss[0]) && n <= |lingers|
    requires !AsDesired(inst, d, t, ss[n])
    ensures Active(ss, n) <= 4
  {
    if Active(ss, n) >= 5 { RoutesConverge(inst, d, t, ss, lingers, n); }
  }

  lemma RankBound(inst: Instance, d: Desired, t: Item, s: Slot)
    requires OnRoute(t)
    ensures RouteRank(inst, d, t, s) <= 8 && (Unwants(t) ==> RouteRank(inst, d, t, s) <= 2)
  {
  }

  /** How many of the first `n` rounds changed the Route. */
  function Changes(inst: Instance, d: Desired, t: Item, ss: seq<Slot>, lingers: seq<bool>, n: nat): nat
    requires OnRoute(t) && n <= |lingers| && n <= |ss|
  {
    if n == 0 then 0
    else Changes(inst, d, t, ss, lingers, n - 1) + if RouteAfter(inst, d, t, ss[n - 1], lingers[n - 1]) != ss[n - 1] then 1 else 0
  }

  /** However long it goes on, the operator changes the Route in no more rounds than its rank, so in at most eight. */
  lemma {:induction false} ChangesBounded(inst: Instance, d: Desired, t: Item, ss: seq<Slot>, lingers: seq<bool>, n: nat)
    requires OnRoute(t) && Rounds(inst, d, t, ss, lingers) && NoRival(inst.uid, ss[0]) && n <= |lingers|
    ensures Changes(inst, d, t, ss, lingers, n) + RouteRank(inst, d, t, ss[n]) <= RouteRank(inst, d, t, ss[0]) <= 8
  {
    RankBound(inst, d, t, ss[0]);
    if n > 0 {
      ChangesBounded(inst, d, t, ss, lingers, n - 1);
      RankAfterRounds(inst, d, t, ss, lingers, n - 1);
      ChangeCosts(inst, d, t, ss[n - 1], lingers[n - 1], ss[n]);
    }
  }

  lemma ChangeCosts(inst: Instance, d: Desired, t: Item, s: Slot, lingers: bool, s': Slot)
    requires OnRoute(t) && NoRival(inst.uid, s) && Round(inst, d, t, s, lingers, s')
    ensures (if RouteAfter(inst, d, t, s, lingers) != s then 1 else 0) + RouteRank(inst, d, t, s') <= RouteRank(inst, d, t, s)
  {
    RoundDecreases(inst, d, t, s, lingers, s');
  }
}
