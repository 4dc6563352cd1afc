/** The managed database's Pod, statefulset.go of internal/manifests/postgres: what it refers to, and that it starts with the
    credentials Gateway logs in with. */
module Postgres {
  import opened Options
  import opened ObjectNames
  import opened Resolve
  import opened Cluster
  import opened Pod
  import opened PodFiles
  import opened Plan
  import opened Addresses
  import opened Machine
  import opened Reach
  import opened PlanLaws
  import opened References
  import opened WriteOnce
  import opened SecretContents

  // ---- The Pod ----

  datatype Source = WholeSecret(secret: string) | WholeConfigMap(configMap: string) | Scratch

  datatype Share = Share(volume: string, source: Source)

  /** One container and one init container over shared volumes; the data is on a claim of the StatefulSet itself. */
  datatype Server = Server(env: seq<EnvVar>, port: int, mounts: map<string, string>, inits: map<string, string>,
                           shares: seq<Share>)

  /** StatefulSet of statefulset.go, its Pod template: mounts are by path. */
  function ServerOf(d: Desired): Server {
    Server([EnvVar(Other("POSTGRESQL_USER"), FromSecret(d.database.secretName, "username")),
            EnvVar(Other("POSTGRESQL_PASSWORD"), FromSecret(d.database.secretName, "password")),
            EnvVar(Other("POSTGRESQL_DATABASE"), FromSecret(d.database.secretName, "database"))],
           5432,
           map["/var/lib/pgsql/data" := "data", "/opt/app-root/src/certs" := "postgres-certs",
               "/opt/app-root/src/postgresql-cfg" := "postgres-ssl-cfg"],
           map["/tls-src" := "postgres-tls-src", "/certs" := "postgres-certs"],
           [Share("postgres-tls-src", WholeSecret(d.database.tlsSecretName)), Share("postgres-certs", Scratch),
            Share("postgres-ssl-cfg", WholeConfigMap(d.name + "-postgres-ssl"))])
  }

  // ---- References ----

  ghost predicate ReadsVariable(v: Server, k: Key) {
    exists e :: e in v.env && e.value.FromSecret? && k == Key(Secret, e.value.secret)
  }

  ghost predicate ReadsShare(v: Server, k: Key) {
    exists x :: x in v.shares && ((x.source.WholeSecret? && k == Key(Secret, x.source.secret))
                                  || (x.source.WholeConfigMap? && k == Key(ConfigMap, x.source.configMap)))
  }

  lemma VariableReads(d: Desired, k: Key)
    ensures ReadsVariable(ServerOf(d), k) <==> k == Key(Secret, d.database.secretName)
  {
    assert ServerOf(d).env[0] in ServerOf(d).env;
  }

  lemma ShareReads(d: Desired, k: Key)
    ensures ReadsShare(ServerOf(d), k)
       <==> k == Key(Secret, d.database.tlsSecretName) || k == Key(ConfigMap, d.name + "-postgres-ssl")
  {
    assert ServerOf(d).shares[0] in ServerOf(d).shares && ServerOf(d).shares[2] in ServerOf(d).shares;
  }

  /** The database's Pod refers to what the operator generates for it, and besides at most to the TLS Secret the user named. */
  lemma ServerRefers(d: Desired, k: Key)
    ensures ReadsVariable(ServerOf(d), k) || ReadsShare(ServerOf(d), k)
       <==> k in ManifestRefs(PostgresSet(d)) || (!d.database.generateTLS && k == Key(Secret, d.database.tlsSecretName))
  {
    VariableReads(d, k);
    ShareReads(d, k);
  }

  // ---- The volumes ----

  /** Every mount is of a shared volume or of the data claim; and the server's certificates are on the volume into which the init
      container copies those of the TLS Secret. */
  lemma ServerVolumesFit(d: Desired, path: string)
    ensures var v := ServerOf(d);
            && (path in v.mounts ==> v.mounts[path] == "data" || exists x :: x in v.shares && x.volume == v.mounts[path])
            && (path in v.inits ==> exists x :: x in v.shares && x.volume == v.inits[path])
            && "/opt/app-root/src/certs" in v.mounts && "/certs" in v.inits && "/tls-src" in v.inits
            && v.mounts["/opt/app-root/src/certs"] == v.inits["/certs"]
            && Share(v.inits["/tls-src"], WholeSecret(d.database.tlsSecretName)) in v.shares
  {
    var xs := ServerOf(d).shares;
    assert xs[0] in xs && xs[1] in xs && xs[2] in xs;
  }

  // ---- The credentials ----

  const PORT := "5432"

  /** The server listens on the port that the generated URL names and the one Service for it leads to. */
  lemma ServerListensThere(inst: Instance, d: Desired)
    requires Defaulted(inst, d) && d.database.mode == Managed
    ensures ServerOf(d).port == NumberOf(PORT) && Planned(inst, d, ApplyPostgresService)
    ensures AppliedPayload(d, ApplyPostgresService)[Template] == Of(Serves("postgres", [ServerOf(d).port]))
  {
    FourDigits(PORT);
  }

  /** The text a variable gets from the Secret with content `o`. */
  function Got(o: Obj, e: EnvVar): string
    requires e.value.FromSecret?
  {
    Under(o, e.value.key)
  }

  /** The variable of that name, which the server reads from the database Secret. */
  ghost predicate Starts(d: Desired, e: EnvVar, name: string) {
    e in ServerOf(d).env && e.name == Other(name) && e.value.FromSecret? && e.value.secret == d.database.secretName
  }

  /** Gateway's URL logs in as the user, with the password and to the database that the server starts with. */
  ghost predicate LogsIn(inst: Instance, d: Desired, o: Obj, g: EnvVar) {
    && g.value.FromSecret? && g.value.secret == d.database.secretName
    && exists u, p, b :: Starts(d, u, "POSTGRESQL_USER") && Starts(d, p, "POSTGRESQL_PASSWORD")
                         && Starts(d, b, "POSTGRESQL_DATABASE") && Got(o, g) == LoginUrl(inst, Got(o, u), Got(o, p), Got(o, b))
  }

  function LoginUrl(inst: Instance, user: string, password: string, database: string): string {
    "postgresql+asyncpg://" + user + ":" + password + "@" + (inst.name + "-postgres." + inst.namespace + ".svc")
    + ":" + PORT + "/" + database + "?ssl=verify-full"
  }

  lemma LoginUrlText(inst: Instance, user: string, password: string, database: string)
    ensures LoginUrl(inst, user, password, database)
         == "postgresql+asyncpg://" + user + ":" + password + "@" + (inst.name + "-postgres." + inst.namespace + ".svc")
            + ":5432/" + database + "?ssl=verify-full"
  {
    var front := "postgresql+asyncpg://" + user + ":" + password + "@" + (inst.name + "-postgres." + inst.namespace + ".svc");
    assert ":" + PORT + "/" == ":5432/";
    assert front + ":" + PORT + "/" == front + (":" + PORT + "/");
  }

  lemma ServerStarts(d: Desired) returns (u: EnvVar, p: EnvVar, b: EnvVar)
    ensures Starts(d, u, "POSTGRESQL_USER") && u.value.key == "username"
    ensures Starts(d, p, "POSTGRESQL_PASSWORD") && p.value.key == "password"
    ensures Starts(d, b, "POSTGRESQL_DATABASE") && b.value.key == "database"
  {
    var env := ServerOf(d).env;
    u, p, b := env[0], env[1], env[2];
  }

  lemma GatewayReadsUrl(inst: Instance, d: Desired, c: Container, g: EnvVar)
    requires Defaulted(inst, d) && d.database.mode == Managed
    requires c in PodOf(d).containers && g in c.env && g.name == Other("APME_DATABASE_URL")
    ensures g.value == FromSecret(d.database.secretName, "database-url") && d.database.secretName == inst.name + "-postgres"
  {
    SecretsReachTheirVariables(d, c, g);
  }

  lemma AgreeingLogsIn(inst: Instance, d: Desired, o: Obj, g: EnvVar, password: string)
    requires CredentialsAgree(inst.name, inst.namespace, o, password)
    requires g.value == FromSecret(d.database.secretName, "database-url")
    ensures LogsIn(inst, d, o, g)
  {
    var u, p, b := ServerStarts(d);
    LoginUrlText(inst, Got(o, u), Got(o, p), Got(o, b));
    assert Got(o, u) == Under(o, "username") && Got(o, p) == Under(o, "password") && Got(o, b) == Under(o, "database");
  }

  lemma CreatedAgrees(inst: Instance, s: Sys, ls: seq<Label>, k: Key) returns (o: Obj, password: string)
    requires Reachable(inst, s) && Possible(inst, s, ls) && ReadsOwnUrls(inst) && k == Key(Secret, inst.name + "-postgres")
    requires !Owned(s.store, k, inst.uid) && Owned(RunTo(inst, s, ls).store, k, inst.uid)
    ensures At(RunTo(inst, s, ls).store, k).obj == Some(o) && CredentialsAgree(inst.name, inst.namespace, o, password)
  {
    DatabaseKey(inst, k);
    o := FilledBy(inst, s, ls, k);
    password := PasswordOf(inst, k, o);
  }

  lemma DatabaseKey(inst: Instance, k: Key)
    requires k == Key(Secret, inst.name + "-postgres")
    ensures Generated(inst.name, k)
  {
  }

  lemma FilledBy(inst: Instance, s: Sys, ls: seq<Label>, k: Key) returns (o: Obj)
    requires Reachable(inst, s) && Possible(inst, s, ls) && ReadsOwnUrls(inst) && k.kind == Secret && Generated(inst.name, k)
    requires !Owned(s.store, k, inst.uid) && Owned(RunTo(inst, s, ls).store, k, inst.uid)
    ensures At(RunTo(inst, s, ls).store, k).obj == Some(o) && Filled(inst, k, o)
  {
    CreatedSecretsHold(inst, s, ls, k);
    o := At(RunTo(inst, s, ls).store, k).obj.value;
  }

  lemma PasswordOf(inst: Instance, k: Key, o: Obj) returns (password: string)
    requires k == Key(Secret, inst.name + "-postgres") && Filled(inst, k, o)
    ensures CredentialsAgree(inst.name, inst.namespace, o, password)
  {
    password :| Letters(password) && CredentialsAgree(inst.name, inst.namespace, o, password);
  }

  /** Over every run, whatever fails and however the spec is edited: with a database Secret the operator created in it, Gateway
      logs in to a managed database with what that database starts with. */
  lemma GatewayLogsIn(inst: Instance, d: Desired, s: Sys, ls: seq<Label>, c: Container, g: EnvVar)
    requires Reachable(inst, s) && Possible(inst, s, ls) && ReadsOwnUrls(inst)
    requires Defaulted(inst, d) && d.database.mode == Managed
    requires c in PodOf(d).containers && g in c.env && g.name == Other("APME_DATABASE_URL")
    requires !Owned(s.store, Key(Secret, d.database.secretName), inst.uid)
    requires Owned(RunTo(inst, s, ls).store, Key(Secret, d.database.secretName), inst.uid)
    ensures LogsIn(inst, d, At(RunTo(inst, s, ls).store, Key(Secret, d.database.secretName)).obj.value, g)
  {
    var k := Key(Secret, d.database.secretName);
    GatewayReadsUrl(inst, d, c, g);
    var o, password := CreatedAgrees(inst, s, ls, k);
    AgreeingLogsIn(inst, d, o, g, password);
  }
}
