/** Generated Secrets are written once: passwords, tokens and TLS material never change after creation. */
module WriteOnce {
  import opened Options
  import opened ObjectNames
  import opened Resolve
  import opened Cluster
  import opened Manifests
  import opened DatabaseUrl
  import opened DatabaseUrlLaws
  import opened Plan
  import opened Machine
  import opened Reach
  import opened PlanLaws
  import opened Frames
  import opened Incarnations

  /** The object's data are the same. */
  ghost predicate SameData(o: Obj, o': Obj) { forall key :: SameField(o.fields, o'.fields, Data(key)) }

  /** The one rewrite there is: the database URL, to what WithVerifyFullTLS makes of it. */
  ghost predicate UrlRewritten(inst: Instance, o: Obj, o': Obj) {
    && TextOf(o.fields, URL) != ""
    && inst.verifyFull(TextOf(o.fields, URL)) == Some(TextOf(o'.fields, URL))
    && TextOf(o'.fields, URL) != TextOf(o.fields, URL)
    && (forall f :: f != URL ==> SameField(o.fields, o'.fields, f))
  }

  function DatabaseSecret(inst: Instance): Key { Key(Secret, inst.name + "-postgres") }

  lemma SecretItem(t: Item)
    requires KindOf(t) == Secret
    ensures t == EnsureTLS || t == EnsureDatabaseSecret || t == EnsureAbbenayToken || t == EnsureProxyToken
  {
  }

  /** What a step may call on a Secret: nothing, a creation, or the update of the URL it has read. */
  lemma SecretCall(inst: Instance, d: Desired, t: Item, seen: seq<Slot>, m: Material)
    requires Defaulted(inst, d) && Planned(inst, d, t) && KindOf(t) == Secret
    ensures var a := NextAction(inst, d, t, seen, m);
            && !a.Patch? && !a.Delete?
            && (a.Create? ==> t == EnsureDatabaseSecret ==>
                  a.payload == DatabaseSecretPayload(inst.name, inst.namespace, m.password))
            && (a.Update? ==>
                  t == EnsureDatabaseSecret && Looks(inst.name, d, t) && seen != [] && seen[0].obj.Some?
                  && a.version == seen[0].version
                  && var raw := TextOf(seen[0].obj.value.fields, URL);
                     raw != "" && inst.verifyFull(raw).Some? && inst.verifyFull(raw).value != raw
                     && a.changes == map[URL := Cluster.Text(inst.verifyFull(raw).value)])
  {
    SecretItem(t);
  }

  lemma AnswerOnSecret(uid: Uid, s: Slot, a: Action, lingers: bool, updated: string)
    requires a.Create? || a.Update?
    requires s.obj.Some? && Answer(uid, s, a, lingers).Done?
    requires a.Update? ==> a.changes == map[URL := Cluster.Text(updated)]
    ensures var o := Answer(uid, s, a, lingers).slot.obj;
            && a.Update? && o.Some? && o.value.controller == s.obj.value.controller && o.value.born == s.obj.value.born
            && TextOf(o.value.fields, URL) == updated
            && (forall f :: f != URL ==> SameField(s.obj.value.fields, o.value.fields, f))
  {
  }

  lemma SameVersionSameSlot(name: string, uid: Uid, k: Key, s: Slot, s': Slot)
    requires Bystander(name, uid, k, s, s') && s'.version == s.version
    ensures s' == s
  {
  }

  /** One step of the operator on a Secret that is there: no change, or the database URL rewritten. */
  lemma SecretStep(inst: Instance, s: Sys, i: Input, k: Key)
    requires Sane(inst, s) && k.kind == Secret && Present(s.store, k)
    ensures var n := At(OperatorStep(inst, s, i).store, k);
            n == At(s.store, k)
            || (k == DatabaseSecret(inst) && n.obj.Some? && UrlRewritten(inst, At(s.store, k).obj.value, n.obj.value)
                && n.obj.value.controller == At(s.store, k).obj.value.controller
                && n.obj.value.born == At(s.store, k).obj.value.born)
  {
    if Busy(inst, s) {
      StepEffect(inst, s, i);
      if At(OperatorStep(inst, s, i).store, k) != At(s.store, k) {
        SecretCallOnKey(inst, s, i, CurrentAction(inst, s, i));
      }
    } else {
      OtherStepsKeepStore(inst, s, i);
    }
  }

  lemma SecretCallOnKey(inst: Instance, s: Sys, i: Input, a: Action)
    requires Sane(inst, s) && Busy(inst, s) && a == CurrentAction(inst, s, i) && Writes(a)
    requires KindOf(Current(s)) == Secret
    requires Present(s.store, WriteKey(inst.name, Current(s)))
    requires Answer(inst.uid, At(s.store, WriteKey(inst.name, Current(s))), a, i.lingers).Done?
    ensures WriteKey(inst.name, Current(s)) == DatabaseSecret(inst)
    ensures var was := At(s.store, DatabaseSecret(inst)).obj.value;
            var o := Answer(inst.uid, At(s.store, DatabaseSecret(inst)), a, i.lingers).slot.obj;
            o.Some? && o.value.controller == was.controller && o.value.born == was.born && UrlRewritten(inst, was, o.value)
  {
    var t := Current(s);
    var k := WriteKey(inst.name, t);
    SecretCall(inst, s.run.d, t, s.run.seen, i.material);
    if a.Update? {
      SameVersionSameSlot(inst.name, inst.uid, k, s.run.seen[0], At(s.store, k));
    }
    AnswerOnSecret(inst.uid, At(s.store, k), a, i.lingers,
                   if a.Update? then inst.verifyFull(TextOf(s.run.seen[0].obj.value.fields, URL)).value else "");
  }

  /** Rewriting is idempotent: a rewritten URL is not rewritten again. */
  lemma RewrittenOnce(inst: Instance, o: Obj, o': Obj, o'': Obj)
    requires RewritesUrls(inst) && Prints(inst.text) && IsBytes(TextOf(o.fields, URL)) && UrlRewritten(inst, o, o')
    ensures !UrlRewritten(inst, o', o'')
  {
    VerifyFullIdempotent(inst.text, TextOf(o.fields, URL));
  }

  // ---- Over runs ----

  /** Nothing but the database URL has changed, and that at most once: it is what it was, or its verify-full form. */
  ghost predicate UrlOnce(inst: Instance, o: Obj, o': Obj) {
    && (forall key :: Data(key) != URL ==> SameField(o.fields, o'.fields, Data(key)))
    && (SameField(o.fields, o'.fields, URL)
        || (TextOf(o.fields, URL) != "" && inst.verifyFull(TextOf(o.fields, URL)) == Some(TextOf(o'.fields, URL))))
  }

  /** The rewrite of a URL leaves its own result alone, for URLs that Go can hold. */
  ghost predicate RewriteSettles(inst: Instance, raw: string) {
    inst.verifyFull(raw).Some? ==> inst.verifyFull(inst.verifyFull(raw).value) == inst.verifyFull(raw)
  }

  lemma BytesSettle(inst: Instance, raw: string)
    requires RewritesUrls(inst) && Prints(inst.text) && IsBytes(raw)
    ensures RewriteSettles(inst, raw)
  {
    if inst.verifyFull(raw).Some? { VerifyFullIdempotent(inst.text, raw); }
  }

  lemma UrlOnceSteps(inst: Instance, o: Obj, p: Obj, q: Obj)
    requires RewriteSettles(inst, TextOf(o.fields, URL)) && UrlOnce(inst, o, p)
    requires SameData(p, q) || UrlRewritten(inst, p, q)
    ensures UrlOnce(inst, o, q)
  {
    if SameData(p, q) {
      assert SameField(p.fields, q.fields, URL);
      forall key | Data(key) != URL
        ensures SameField(o.fields, q.fields, Data(key))
      {
        assert SameField(p.fields, q.fields, Data(key));
      }
    } else {
      RewriteIsFirst(inst, o, p, q);
      forall key | Data(key) != URL
        ensures SameField(o.fields, q.fields, Data(key))
      {
        assert SameField(o.fields, p.fields, Data(key)) && SameField(p.fields, q.fields, Data(key));
      }
    }
  }

  /** A rewrite meets a URL that has not been rewritten. */
  lemma RewriteIsFirst(inst: Instance, o: Obj, p: Obj, q: Obj)
    requires RewriteSettles(inst, TextOf(o.fields, URL)) && UrlOnce(inst, o, p) && UrlRewritten(inst, p, q)
    ensures SameField(o.fields, p.fields, URL)
  {
  }

  /** The owned Secret in `s` goes on as such in `s'`. */
  ghost predicate GoesOn(inst: Instance, s: Slot, s': Slot) {
    && s.obj.Some? && ControlledBy(s.obj.value, inst.uid) && s'.obj.Some? && ControlledBy(s'.obj.value, inst.uid)
    && UrlOnce(inst, s.obj.value, s'.obj.value)
  }

  /** Others leave the data of an owned Secret alone. */
  lemma OthersKeepData(inst: Instance, store: Store, store': Store, k: Key)
    requires Bystanders(inst, store, store') && k.kind == Secret && Generated(inst.name, k) && Owned(store, k, inst.uid)
    ensures Owned(store', k, inst.uid) && SameData(At(store, k).obj.value, At(store', k).obj.value)
  {
    assert Bystander(inst.name, inst.uid, k, At(store, k), At(store', k));
    forall key
      ensures SameField(At(store, k).obj.value.fields, At(store', k).obj.value.fields, Data(key))
    {
      assert Kept(At(store, k).obj.value, Data(key));
    }
  }

  /** One step of any kind changes an owned Secret in no way but the one rewrite. */
  lemma NextKeepsSecret(inst: Instance, s: Sys, l: Label, k: Key)
    requires Sane(inst, s) && Enabled(inst, s, l) && k.kind == Secret && Generated(inst.name, k)
    requires Owned(s.store, k, inst.uid)
    ensures Owned(Next(inst, s, l).store, k, inst.uid)
    ensures var o, o' := At(s.store, k).obj.value, At(Next(inst, s, l).store, k).obj.value;
            SameData(o, o') || UrlRewritten(inst, o, o')
  {
    match l
    case Operate(i) => SecretStep(inst, s, i, k);
    case Others(store) => OthersKeepData(inst, s.store, store, k);
    case _ =>
  }

  lemma {:induction false} RunKeepsSecret(inst: Instance, s: Sys, ls: seq<Label>, k: Key)
    requires Sane(inst, s) && Possible(inst, s, ls)
    requires k.kind == Secret && Generated(inst.name, k) && Owned(s.store, k, inst.uid)
    requires RewriteSettles(inst, TextOf(At(s.store, k).obj.value.fields, URL))
    ensures GoesOn(inst, At(s.store, k), At(RunTo(inst, s, ls).store, k))
    decreases |ls|
  {
    if ls != [] {
      var front, l := ls[..|ls| - 1], ls[|ls| - 1];
      var s' := RunTo(inst, s, front);
      RunKeepsSecret(inst, s, front, k);
      SaneRun(inst, s, front);
      NextKeepsSecret(inst, s', l, k);
      UrlOnceSteps(inst, At(s.store, k).obj.value, At(s'.store, k).obj.value, At(Next(inst, s', l).store, k).obj.value);
    }
  }

  /** Over every run from a reachable state, whatever fails and however the spec is edited: a Secret of the operator,
      an earlier operator's included, is still there and still its own, and of its data only the database URL may have
      changed, to its verify-full form, once and for all. */
  lemma SecretsWrittenOnce(inst: Instance, s: Sys, ls: seq<Label>, k: Key)
    requires Reachable(inst, s) && Possible(inst, s, ls)
    requires k.kind == Secret && Generated(inst.name, k) && Owned(s.store, k, inst.uid)
    requires RewritesUrls(inst) && Prints(inst.text) && IsBytes(TextOf(At(s.store, k).obj.value.fields, URL))
    ensures GoesOn(inst, At(s.store, k), At(RunTo(inst, s, ls).store, k))
  {
    ReachableSane(inst, s);
    BytesSettle(inst, TextOf(At(s.store, k).obj.value.fields, URL));
    RunKeepsSecret(inst, s, ls, k);
  }

  // ---- The Secrets the operator created ----

  /** net/url reads the URLs the operator generates as they are. */
  ghost predicate ReadsOwnUrls(inst: Instance) {
    && RewritesUrls(inst) && DnsName(inst.name) && DnsName(inst.namespace) && inst.text.fragment("") == Some("")
    && forall password :: Letters(password) ==>
         inst.text.base(OwnBase(inst.name, inst.namespace, password)) == Some(OwnBase(inst.name, inst.namespace, password))
  }

  /** The URL in the operator's database Secret is one it would leave alone. */
  ghost predicate UrlSettled(inst: Instance, o: Obj) {
    var raw := TextOf(o.fields, URL);
    raw == "" || inst.verifyFull(raw) == Some(raw)
  }

  lemma CreatedSettled(inst: Instance, password: string, uid: Uid, s: Slot)
    requires ReadsOwnUrls(inst) && Letters(password)
    ensures var r := Created(s, uid, DatabaseSecretPayload(inst.name, inst.namespace, password));
            r.Done? ==> UrlSettled(inst, r.slot.obj.value)
  {
    OwnUrlIsFixedPoint(inst.text, inst.name, inst.namespace, password);
  }

  /** A Secret with such a URL, as every one this operator creates has, never changes at all. */
  lemma GeneratedSecretsNeverChange(inst: Instance, s: Sys, ls: seq<Label>, k: Key)
    requires Reachable(inst, s) && Possible(inst, s, ls)
    requires k.kind == Secret && Generated(inst.name, k) && Owned(s.store, k, inst.uid)
    requires UrlSettled(inst, At(s.store, k).obj.value)
    ensures Owned(RunTo(inst, s, ls).store, k, inst.uid)
    ensures SameData(At(s.store, k).obj.value, At(RunTo(inst, s, ls).store, k).obj.value)
  {
    ReachableSane(inst, s);
    NeverRewritten(inst, s, ls, k);
  }

  /** A step changes nothing in a Secret whose URL is settled. */
  lemma {:induction false} NeverRewritten(inst: Instance, s: Sys, ls: seq<Label>, k: Key)
    requires Sane(inst, s) && Possible(inst, s, ls)
    requires k.kind == Secret && Generated(inst.name, k) && Owned(s.store, k, inst.uid)
    requires UrlSettled(inst, At(s.store, k).obj.value)
    ensures Owned(RunTo(inst, s, ls).store, k, inst.uid)
    ensures SameData(At(s.store, k).obj.value, At(RunTo(inst, s, ls).store, k).obj.value)
    decreases |ls|
  {
    if ls != [] {
      var front, l := ls[..|ls| - 1], ls[|ls| - 1];
      var s' := RunTo(inst, s, front);
      NeverRewritten(inst, s, front, k);
      SaneRun(inst, s, front);
      NextKeepsSecret(inst, s', l, k);
      SettledStays(inst, At(s.store, k).obj.value, At(s'.store, k).obj.value, At(Next(inst, s', l).store, k).obj.value);
    }
  }

  lemma SettledStays(inst: Instance, o: Obj, p: Obj, q: Obj)
    requires UrlSettled(inst, o) && SameData(o, p) && (SameData(p, q) || UrlRewritten(inst, p, q))
    ensures SameData(o, q)
  {
    assert SameField(o.fields, p.fields, URL);
    forall key
      ensures SameField(o.fields, q.fields, Data(key))
    {
      assert SameField(o.fields, p.fields, Data(key));
      if SameData(p, q) { assert SameField(p.fields, q.fields, Data(key)); }
    }
  }
}
