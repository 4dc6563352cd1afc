/** What the Secrets the operator creates hold, key by key, and that it stays there: the credentials Postgres starts with are
    those in the URL Gateway logs in with. */
module SecretContents {
  import opened Options
  import opened ObjectNames
  import opened Resolve
  import opened Cluster
  import opened Manifests
  import opened DatabaseUrl
  import opened DatabaseUrlLaws
  import opened Plan
  import opened PlanLaws
  import opened Machine
  import opened Reach
  import opened Frames
  import opened Incarnations
  import opened WriteOnce
  import opened Exchanges

  // ---- Contents ----

  /** The text under a key; "" if there is none. */
  function Under(o: Obj, key: string): string { TextOf(o.fields, Data(key)) }

  /** The URL names the user, the password and the database that the Secret holds under its own keys, the managed
      database's Service, and verify-full TLS; and the password is `password`. */
  ghost predicate CredentialsAgree(name: string, namespace: string, o: Obj, password: string) {
    && Under(o, "database-url")
       == "postgresql+asyncpg://" + Under(o, "username") + ":" + Under(o, "password") + "@" + (name + "-postgres." + namespace + ".svc")
          + ":5432/" + Under(o, "database") + "?ssl=verify-full"
    && Under(o, "password") == password && Under(o, "username") == "apme" && Under(o, "database") == "apme"
  }

  predicate HoldsTLS(o: Obj, m: Material) {
    Under(o, "tls.crt") == m.crt && Under(o, "tls.key") == m.key && Under(o, "ca.crt") == m.ca
  }

  lemma PrintPlain(base: string, raw: string)
    ensures PrintUrl(Url(base, raw, "")) == base + ("?" + raw)
  {
  }

  lemma OwnQueryText()
    ensures "?" + OwnRawQuery() == "?ssl=verify-full"
  {
  }

  lemma OwnUrlText(name: string, namespace: string, password: string)
    requires DnsName(name) && DnsName(namespace) && Letters(password)
    ensures OwnUrl(name, namespace, password)
         == "postgresql+asyncpg://" + "apme" + ":" + password + "@" + (name + "-postgres." + namespace + ".svc") + ":5432/" + "apme"
            + "?ssl=verify-full"
  {
    OwnBaseText(name, namespace, password);
    PrintPlain(OwnBase(name, namespace, password), OwnRawQuery());
    OwnQueryText();
  }

  /** The database Secret as created. */
  lemma CreatedCredentials(name: string, namespace: string, uid: Uid, s: Slot, password: string)
    requires DnsName(name) && DnsName(namespace) && Letters(password) && s.obj.None?
    ensures var r := Created(s, uid, DatabaseSecretPayload(name, namespace, password));
            r.Done? && r.slot.obj.Some? && CredentialsAgree(name, namespace, r.slot.obj.value, password)
  {
    OwnUrlText(name, namespace, password);
  }

  // ---- What the calls leave ----

  /** The object at `k` once the request has been served. */
  function Made(uid: Uid, c: Exchange, k: Key): Option<Obj> { At(StoreServed(uid, c.before, c.request, c.input), k).obj }

  /** A missing database Secret now agrees with itself, and holds the password drawn. */
  ghost predicate CredentialsCreated(uid: Uid, d: Desired, cs: seq<Exchange>, err: Option<Ending>) {
    var k := Key(Secret, d.database.secretName);
    cs != [] && Missing(cs[0], k) && err == None && DnsName(d.name) && DnsName(d.namespace) ==>
      && |cs| == 2 && Made(uid, cs[1], k).Some? && ControlledBy(Made(uid, cs[1], k).value, uid)
      && CredentialsAgree(d.name, d.namespace, Made(uid, cs[1], k).value, cs[1].input.material.password)
  }

  lemma CallsCreateCredentials(inst: Instance, d: Desired, cs: seq<Exchange>, err: Option<Ending>)
    requires DatabaseSecretCalls(inst, d, cs, err)
    requires |cs| == 2 ==> Letters(cs[1].input.material.password)
    ensures CredentialsCreated(inst.uid, d, cs, err)
  {
    var k := Key(Secret, d.database.secretName);
    if Missing(cs[0], k) && err == None && DnsName(d.name) && DnsName(d.namespace) {
      CreatedCredentials(d.name, d.namespace, inst.uid, At(cs[1].before, k), cs[1].input.material.password);
    }
  }

  /** Without an error the TLS Secret is complete: as found, or with the material drawn under its three keys. */
  ghost predicate TLSInHand(uid: Uid, d: Desired, cs: seq<Exchange>, err: Option<Ending>) {
    var k := Key(Secret, d.database.tlsSecretName);
    cs != [] && err == None ==>
      if Found(cs[0], k) then
        Under(Read(cs[0], k), "tls.crt") != "" && Under(Read(cs[0], k), "tls.key") != "" && Under(Read(cs[0], k), "ca.crt") != ""
      else |cs| == 2 && Made(uid, cs[1], k).Some? && ControlledBy(Made(uid, cs[1], k).value, uid)
           && HoldsTLS(Made(uid, cs[1], k).value, cs[1].input.material)
  }

  lemma CallsGiveTLS(uid: Uid, d: Desired, cs: seq<Exchange>, err: Option<Ending>)
    requires TLSCalls(uid, d, cs, err)
    ensures TLSInHand(uid, d, cs, err)
  {
  }

  /** Without an error the token Secret is there; one that was missing now holds the token drawn under its key. */
  ghost predicate TokenInHand(uid: Uid, k: Key, key: string, cs: seq<Exchange>, err: Option<Ending>) {
    cs != [] && !Found(cs[0], k) && err == None ==>
      |cs| == 2 && Made(uid, cs[1], k).Some? && ControlledBy(Made(uid, cs[1], k).value, uid)
      && Under(Made(uid, cs[1], k).value, key) == cs[1].input.material.token
  }

  lemma CallsGiveProxyToken(uid: Uid, d: Desired, cs: seq<Exchange>, err: Option<Ending>)
    requires ProxyTokenCalls(uid, d, cs, err)
    ensures TokenInHand(uid, Key(Secret, d.proxy.tokenName), d.proxy.tokenKey, cs, err)
  {
  }

  lemma CallsGiveAbbenayToken(uid: Uid, d: Desired, cs: seq<Exchange>, err: Option<Ending>)
    requires AbbenayTokenCalls(uid, d, cs, err) && d.abbenay.tokenName == d.name + "-abbenay"
    ensures TokenInHand(uid, Key(Secret, d.abbenay.tokenName), d.abbenay.tokenKey, cs, err)
  {
  }

  // ---- Over runs ----

  /** What a Secret the operator created holds, by its name: the database Secret agrees with itself, the TLS Secret is
      complete, and the admin token is not empty. */
  ghost predicate Filled(inst: Instance, k: Key, o: Obj) {
    && (k == Key(Secret, inst.name + "-postgres") ==>
          exists password :: Letters(password) && CredentialsAgree(inst.name, inst.namespace, o, password))
    && (k == Key(Secret, inst.name + "-postgres-tls") ==>
          Under(o, "tls.crt") != "" && Under(o, "tls.key") != "" && Under(o, "ca.crt") != "")
    && (k == Key(Secret, inst.name + "-proxy-admin") ==> Under(o, "token") != "")
  }

  lemma SuffixesTell(name: string)
    ensures name + "-postgres" != name + "-postgres-tls" && name + "-postgres" != name + "-proxy-admin"
    ensures name + "-postgres-tls" != name + "-proxy-admin" && name + "-abbenay" != name + "-postgres"
    ensures name + "-abbenay" != name + "-postgres-tls" && name + "-abbenay" != name + "-proxy-admin"
  {
    assert |name + "-postgres"| == |name| + 9 && |name + "-postgres-tls"| == |name| + 13;
    assert |name + "-proxy-admin"| == |name| + 12 && |name + "-abbenay"| == |name| + 8;
  }

  lemma DatabaseSecretFilled(inst: Instance, d: Desired, seen: seq<Slot>, m: Material, s: Slot)
    requires ReadsOwnUrls(inst) && Defaulted(inst, d) && Planned(inst, d, EnsureDatabaseSecret) && Drawn(m) && s.obj.None?
    requires NextAction(inst, d, EnsureDatabaseSecret, seen, m).Create?
    ensures var r := Created(s, inst.uid, NextAction(inst, d, EnsureDatabaseSecret, seen, m).payload);
            r.Done? && r.slot.obj.Some? && Filled(inst, DatabaseSecret(inst), r.slot.obj.value)
  {
    SecretCall(inst, d, EnsureDatabaseSecret, seen, m);
    CreatedCredentials(inst.name, inst.namespace, inst.uid, s, m.password);
    SuffixesTell(inst.name);
  }

  lemma TLSSecretFilled(inst: Instance, d: Desired, seen: seq<Slot>, m: Material, s: Slot)
    requires Drawn(m) && s.obj.None? && NextAction(inst, d, EnsureTLS, seen, m).Create?
    ensures var r := Created(s, inst.uid, NextAction(inst, d, EnsureTLS, seen, m).payload);
            r.Done? && r.slot.obj.Some? && Filled(inst, Key(Secret, inst.name + "-postgres-tls"), r.slot.obj.value)
  {
    SuffixesTell(inst.name);
  }

  lemma ProxyTokenFilled(inst: Instance, d: Desired, seen: seq<Slot>, m: Material, s: Slot)
    requires Defaulted(inst, d) && Drawn(m) && s.obj.None? && NextAction(inst, d, EnsureProxyToken, seen, m).Create?
    ensures var r := Created(s, inst.uid, NextAction(inst, d, EnsureProxyToken, seen, m).payload);
            r.Done? && r.slot.obj.Some? && Filled(inst, Key(Secret, inst.name + "-proxy-admin"), r.slot.obj.value)
  {
    SuffixesTell(inst.name);
  }

  lemma AbbenayNotNamed(inst: Instance, k: Key, o: Obj)
    requires k == Key(Secret, inst.name + "-abbenay")
    ensures Filled(inst, k, o)
  {
    SuffixesTell(inst.name);
  }

  /** Whatever Secret is created is filled. */
  lemma CreateFills(inst: Instance, d: Desired, t: Item, seen: seq<Slot>, m: Material, s: Slot, a: Action)
    requires ReadsOwnUrls(inst) && Defaulted(inst, d) && Planned(inst, d, t) && KindOf(t) == Secret && Drawn(m)
    requires s.obj.None?
    requires a == NextAction(inst, d, t, seen, m) && a.Create?
    ensures var r := Created(s, inst.uid, a.payload);
            r.Done? && r.slot.obj.Some? && Filled(inst, WriteKey(inst.name, t), r.slot.obj.value)
  {
    SecretItem(t);
    if t.EnsureDatabaseSecret? { DatabaseSecretFilled(inst, d, seen, m, s); }
    else if t.EnsureTLS? { TLSSecretFilled(inst, d, seen, m, s); }
    else if t.EnsureProxyToken? { ProxyTokenFilled(inst, d, seen, m, s); }
    else { AbbenayNotNamed(inst, WriteKey(inst.name, t), Created(s, inst.uid, a.payload).slot.obj.value); }
  }

  /** Only a creation brings a Secret about. */
  lemma BroughtByCreate(uid: Uid, s: Slot, a: Action, lingers: bool)
    requires s.obj.None? && !a.Patch? && Writes(a) && Answer(uid, s, a, lingers).Done?
    ensures Answer(uid, s, a, lingers).slot.obj.Some? ==> a.Create? && Answer(uid, s, a, lingers) == Created(s, uid, a.payload)
  {
  }

  /** A Secret that a step brings about is filled. */
  lemma CreationFilled(inst: Instance, s: Sys, i: Input, k: Key)
    requires Sane(inst, s) && ReadsOwnUrls(inst) && k.kind == Secret && !Present(s.store, k) && Drawn(i.material)
    requires Present(OperatorStep(inst, s, i).store, k)
    ensures Filled(inst, k, At(OperatorStep(inst, s, i).store, k).obj.value)
  {
    if Busy(inst, s) {
      var a := CurrentAction(inst, s, i);
      StepEffect(inst, s, i);
      SecretCall(inst, s.run.d, Current(s), s.run.seen, i.material);
      BroughtByCreate(inst.uid, At(s.store, k), a, i.lingers);
      CreateFills(inst, s.run.d, Current(s), s.run.seen, i.material, At(s.store, k), a);
    } else {
      OtherStepsKeepStore(inst, s, i);
    }
  }

  /** Data that stay keep a Secret filled. */
  lemma SameDataFilled(inst: Instance, k: Key, o: Obj, o': Obj)
    requires Filled(inst, k, o) && SameData(o, o')
    ensures Filled(inst, k, o')
  {
    UnderSame(o, o', "database-url");
    UnderSame(o, o', "username");
    UnderSame(o, o', "password");
    UnderSame(o, o', "database");
    UnderSame(o, o', "tls.crt");
    UnderSame(o, o', "tls.key");
    UnderSame(o, o', "ca.crt");
    UnderSame(o, o', "token");
    if k == DatabaseSecret(inst) {
      var password :| Letters(password) && CredentialsAgree(inst.name, inst.namespace, o, password);
      assert CredentialsAgree(inst.name, inst.namespace, o', password);
    }
  }

  lemma UnderSame(o: Obj, o': Obj, key: string)
    requires SameData(o, o')
    ensures Under(o', key) == Under(o, key)
  {
    assert SameField(o.fields, o'.fields, Data(key));
  }

  /** Credentials that agree are never rewritten. */
  lemma AgreeingIsSettled(inst: Instance, o: Obj)
    requires ReadsOwnUrls(inst) && Filled(inst, DatabaseSecret(inst), o)
    ensures inst.verifyFull(TextOf(o.fields, URL)) == Some(TextOf(o.fields, URL))
  {
    var password :| Letters(password) && CredentialsAgree(inst.name, inst.namespace, o, password);
    OwnUrlText(inst.name, inst.namespace, password);
    OwnUrlIsFixedPoint(inst.text, inst.name, inst.namespace, password);
  }

  /** What the operator has under its control is filled. */
  ghost predicate FilledIfOwned(inst: Instance, k: Key, s: Slot) {
    s.obj.Some? && ControlledBy(s.obj.value, inst.uid) ==> Filled(inst, k, s.obj.value)
  }

  lemma OperatorKeepsFilled(inst: Instance, s: Sys, i: Input, k: Key)
    requires Sane(inst, s) && ReadsOwnUrls(inst) && k.kind == Secret && Drawn(i.material)
    requires FilledIfOwned(inst, k, At(s.store, k))
    ensures FilledIfOwned(inst, k, At(OperatorStep(inst, s, i).store, k))
  {
    if Present(s.store, k) {
      SecretStep(inst, s, i, k);
      if At(OperatorStep(inst, s, i).store, k) != At(s.store, k) && Owned(s.store, k, inst.uid) {
        AgreeingIsSettled(inst, At(s.store, k).obj.value);
      }
    } else if Present(OperatorStep(inst, s, i).store, k) {
      CreationFilled(inst, s, i, k);
    }
  }

  lemma OthersKeepFilled(inst: Instance, store: Store, store': Store, k: Key)
    requires Bystanders(inst, store, store') && k.kind == Secret && Generated(inst.name, k)
    requires FilledIfOwned(inst, k, At(store, k))
    ensures FilledIfOwned(inst, k, At(store', k))
  {
    assert Bystander(inst.name, inst.uid, k, At(store, k), At(store', k));
    if Owned(store, k, inst.uid) {
      OthersKeepData(inst, store, store', k);
      SameDataFilled(inst, k, At(store, k).obj.value, At(store', k).obj.value);
    }
  }

  lemma {:induction false} RunKeepsFilled(inst: Instance, s: Sys, ls: seq<Label>, k: Key)
    requires Sane(inst, s) && Possible(inst, s, ls) && ReadsOwnUrls(inst)
    requires k.kind == Secret && Generated(inst.name, k) && FilledIfOwned(inst, k, At(s.store, k))
    ensures FilledIfOwned(inst, k, At(RunTo(inst, s, ls).store, k))
    decreases |ls|
  {
    if ls != [] {
      var front, l := ls[..|ls| - 1], ls[|ls| - 1];
      RunKeepsFilled(inst, s, front, k);
      SaneRun(inst, s, front);
      match l
      case Operate(i) => OperatorKeepsFilled(inst, RunTo(inst, s, front), i, k);
      case Others(store) => OthersKeepFilled(inst, RunTo(inst, s, front).store, store, k);
      case _ =>
    }
  }

  // ---- The theorem ----

  /** Over every run, whatever fails and however the spec is edited: a Secret of the operator that was not its own when the
      run began holds what it was created with. The URL in the database Secret logs in as the user, with the password and to
      the database that Postgres is started with; the TLS Secret has its three keys; the admin token is not empty. */
  lemma CreatedSecretsHold(inst: Instance, s: Sys, ls: seq<Label>, k: Key)
    requires Reachable(inst, s) && Possible(inst, s, ls) && ReadsOwnUrls(inst)
    requires k.kind == Secret && Generated(inst.name, k)
    requires !Owned(s.store, k, inst.uid) && Owned(RunTo(inst, s, ls).store, k, inst.uid)
    ensures Filled(inst, k, At(RunTo(inst, s, ls).store, k).obj.value)
  {
    ReachableSane(inst, s);
    RunKeepsFilled(inst, s, ls, k);
  }
}
