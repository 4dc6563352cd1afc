/** Facts about the plan: every item writes one object under a generated name, no two items write the same one, and
    whatever an object refers to is seen to before it. */
module PlanLaws {
  import opened ObjectNames
  import opened Resolve
  import opened Cluster
  import opened Manifests
  import opened Plan
  import opened Machine

  // ---- Intents ----

  /** What From guarantees about the names in an intent. */
  ghost predicate Defaulted(inst: Instance, d: Desired) {
    && d.name == inst.name && d.namespace == inst.namespace
    && d.proxy.tokenName == inst.name + "-proxy-admin" && d.proxy.tokenKey == "token"
    && (d.database.generate <==> d.database.mode == Managed)
    && (d.database.mode == Managed ==> d.database.secretName == inst.name + "-postgres" && d.database.secretKey == "database-url")
    && (d.database.generateTLS ==> d.database.mode == Managed && d.database.tlsSecretName == inst.name + "-postgres-tls")
    && (d.abbenay.generateToken ==> d.abbenay.enabled && d.abbenay.tokenName == inst.name + "-abbenay")
    && (d.abbenay.persist ==> d.abbenay.enabled)
  }

  lemma IntentDefaulted(inst: Instance, spec: ApmeSpec)
    ensures Defaulted(inst, IntentOf(inst, spec))
  {
  }

  // ---- Names ----

  lemma SuffixListed(t: Item)
    ensures SuffixOf(t) in Suffixes(KindOf(t))
  {
    var ss := Suffixes(KindOf(t));
    assert ss[0] in ss;
    if |ss| > 1 { assert ss[1] in ss; }
    if |ss| > 2 { assert ss[2] in ss; }
    if |ss| > 3 { assert ss[3] in ss; }
  }

  lemma WriteKeyGenerated(name: string, t: Item)
    ensures Generated(name, WriteKey(name, t))
  {
    SuffixListed(t);
  }

  /** Position of an item's object among all objects of an instance. */
  function Rank(t: Item): int {
    match t
    case ApplyServiceAccount => 0
    case ApplySessionsClaim => 1
    case ApplyProxyCacheClaim => 2
    case EnsureTLS => 3
    case EnsureDatabaseSecret => 4
    case ApplySSLConfig => 5
    case SeeLeftover => 6
    case ApplyPostgresSet => 6
    case ApplyPostgresService => 7
    case ApplyPostgresPolicy => 8
    case EnsureAbbenayToken => 9
    case ApplyAbbenayConfig => 10
    case ApplyAbbenayClaim => 11
    case EnsureProxyToken => 12
    case ApplyDeployment => 13
    case ApplyEngineService => 14
    case ApplyGatewayService => 15
    case ApplyUIService => 16
    case ApplyIngress => 17
    case ApplyPolicy => 18
    case WantUIRoute => 19
    case UnwantUIRoute => 19
    case WantAPIRoute => 20
    case UnwantAPIRoute => 20
  }

  lemma SuffixTells(t: Item, u: Item)
    requires KindOf(t) == KindOf(u) && |SuffixOf(t)| == |SuffixOf(u)|
    ensures Rank(t) == Rank(u)
  {
  }

  lemma KeyTells(name: string, t: Item, u: Item)
    requires WriteKey(name, t) == WriteKey(name, u)
    ensures Rank(t) == Rank(u)
  {
    assert |SuffixOf(t)| == |name + SuffixOf(t)| - |name| == |SuffixOf(u)|;
    SuffixTells(t, u);
  }

  ghost predicate Climbing(ts: seq<Item>, lo: int, hi: int) {
    && (ts != [] ==> lo <= Rank(ts[0]) && Rank(ts[|ts| - 1]) < hi)
    && (forall i :: 0 <= i < |ts| - 1 ==> Rank(ts[i]) < Rank(ts[i + 1]))
  }

  lemma {:induction false} Ordered(ts: seq<Item>, lo: int, hi: int, i: nat, j: nat)
    requires Climbing(ts, lo, hi) && i < j < |ts|
    ensures Rank(ts[i]) < Rank(ts[j])
  {
    if i < j - 1 { Ordered(ts, lo, hi, i, j - 1); }
    assert Rank(ts[j - 1]) < Rank(ts[j - 1 + 1]);
  }

  lemma ClimbOn(a: seq<Item>, b: seq<Item>, lo: int, mid: int, hi: int)
    requires Climbing(a, lo, mid) && Climbing(b, mid, hi)
    ensures (a != [] || lo <= mid) && (b != [] || mid <= hi) ==> Climbing(a + b, lo, hi)
  {
    forall i | 0 <= i < |a + b| - 1
      ensures Rank((a + b)[i]) < Rank((a + b)[i + 1])
    {
      if i < |a| - 1 {
        assert Rank(a[i]) < Rank(a[i + 1]);
      } else if i >= |a| {
        assert Rank(b[i - |a|]) < Rank(b[i - |a| + 1]);
      }
    }
  }

  lemma ClimbThrough(a: seq<Item>, b: seq<Item>, c: seq<Item>, p: int, q: int, r: int, t: int)
    requires Climbing(a, p, q) && Climbing(b, q, r) && Climbing(c, r, t) && p <= q <= r <= t
    ensures Climbing(a + b + c, p, t)
  {
    ClimbOn(a, b, p, q, r);
    ClimbOn(a + b, c, p, r, t);
  }

  lemma DatabaseClimbs(d: Desired)
    ensures Climbing(DatabaseItems(d), 3, 9)
  {
  }

  lemma AbbenayClimbs(d: Desired)
    ensures Climbing(AbbenayItems(d), 9, 12)
  {
  }

  lemma OptionalClimbs(d: Desired)
    ensures Climbing(OptionalItems(d), 16, 19)
  {
  }

  lemma WorkloadClimbs(d: Desired)
    ensures Climbing(WorkloadItems(d), 13, 19)
  {
    OptionalClimbs(d);
    MandatoryClimb();
    ClimbOn(MANDATORY, OptionalItems(d), 13, 16, 19);
  }

  const MANDATORY := [ApplyDeployment, ApplyEngineService, ApplyGatewayService]

  lemma MandatoryClimb()
    ensures Climbing(MANDATORY, 13, 16)
  {
  }

  lemma ClimbSix(a: seq<Item>, b: seq<Item>, c: seq<Item>, e: seq<Item>, f: seq<Item>, g: seq<Item>)
    requires Climbing(a, 0, 3) && Climbing(b, 3, 9) && Climbing(c, 9, 12)
    requires Climbing(e, 12, 13) && Climbing(f, 13, 19) && Climbing(g, 19, 21)
    ensures Climbing(a + b + c + e + f + g, 0, 21)
  {
    ClimbThrough(a, b, c, 0, 3, 9, 12);
    ClimbThrough(a + b + c, e, f, 0, 12, 13, 19);
    ClimbOn(a + b + c + e + f, g, 0, 19, 21);
  }

  lemma RouteClimbs(inst: Instance, d: Desired)
    ensures Climbing(RouteItems(inst, d), 19, 21)
  {
  }

  lemma EndsClimb()
    ensures Climbing(CORE, 0, 3) && Climbing([EnsureProxyToken], 12, 13)
  {
  }

  lemma ItemsClimb(inst: Instance, d: Desired)
    ensures Climbing(Items(inst, d), 0, 21)
  {
    EndsClimb();
    DatabaseClimbs(d);
    AbbenayClimbs(d);
    WorkloadClimbs(d);
    RouteClimbs(inst, d);
    ClimbSix(CORE, DatabaseItems(d), AbbenayItems(d), [EnsureProxyToken], WorkloadItems(d), RouteItems(inst, d));
  }

  /** No two items of a plan write the same object. */
  lemma WriteKeysDistinct(inst: Instance, d: Desired, i: nat, j: nat)
    requires i < |Items(inst, d)| && j < |Items(inst, d)| && i != j
    ensures WriteKey(d.name, Items(inst, d)[i]) != WriteKey(d.name, Items(inst, d)[j])
  {
    ItemsClimb(inst, d);
    if WriteKey(d.name, Items(inst, d)[i]) == WriteKey(d.name, Items(inst, d)[j]) {
      KeyTells(d.name, Items(inst, d)[i], Items(inst, d)[j]);
      Ordered(Items(inst, d), 0, 21, if i < j then i else j, if i < j then j else i);
    }
  }

  // ---- Which items a plan has ----

  /** The toggles under which an item is in the plan. */
  predicate Planned(inst: Instance, d: Desired, t: Item) {
    match t
    case SeeLeftover => d.database.mode == External
    case EnsureTLS => d.database.mode == Managed
    case EnsureDatabaseSecret => d.database.mode == Managed
    case ApplySSLConfig => d.database.mode == Managed
    case ApplyPostgresSet => d.database.mode == Managed
    case ApplyPostgresService => d.database.mode == Managed
    case ApplyPostgresPolicy => d.database.mode == Managed && d.networkPolicy
    case EnsureAbbenayToken => d.abbenay.enabled && d.abbenay.generateToken
    case ApplyAbbenayConfig => d.abbenay.enabled && d.abbenay.configMap == ""
    case ApplyAbbenayClaim => d.abbenay.enabled && d.abbenay.persist
    case ApplyUIService => d.components.ui
    case ApplyIngress => d.exposure.ingressEnabled
    case ApplyPolicy => d.networkPolicy
    case WantUIRoute => inst.routeAPI && d.exposure.routeEnabled && d.components.ui
    case UnwantUIRoute => inst.routeAPI && !(d.exposure.routeEnabled && d.components.ui)
    case WantAPIRoute => inst.routeAPI && d.exposure.routeEnabled
    case UnwantAPIRoute => inst.routeAPI && !d.exposure.routeEnabled
    case _ => true
  }

  lemma DatabaseMembers(inst: Instance, d: Desired, t: Item)
    ensures t in DatabaseItems(d) <==> 3 <= Rank(t) < 9 && Planned(inst, d, t)
  {
  }

  lemma AbbenayMembers(inst: Instance, d: Desired, t: Item)
    ensures t in AbbenayItems(d) <==> 9 <= Rank(t) < 12 && Planned(inst, d, t)
  {
  }

  lemma WorkloadMembers(inst: Instance, d: Desired, t: Item)
    ensures t in WorkloadItems(d) <==> 13 <= Rank(t) < 19 && Planned(inst, d, t)
  {
  }

  lemma RouteMembers(inst: Instance, d: Desired, t: Item)
    ensures t in RouteItems(inst, d) <==> 19 <= Rank(t) < 21 && Planned(inst, d, t)
  {
  }

  lemma CoreMembers(t: Item)
    ensures t in CORE <==> Rank(t) < 3
    ensures t in [EnsureProxyToken] <==> Rank(t) == 12
  {
    var core := CORE;
    assert core[0] == ApplyServiceAccount && core[1] == ApplySessionsClaim && core[2] == ApplyProxyCacheClaim;
  }

  lemma PlannedAlways(inst: Instance, d: Desired, t: Item)
    requires Rank(t) < 3 || Rank(t) == 12
    ensures Planned(inst, d, t)
  {
  }

  lemma InOneOfSix<T>(a: seq<T>, b: seq<T>, c: seq<T>, e: seq<T>, f: seq<T>, g: seq<T>, t: T)
    ensures t in a + b + c + e + f + g <==> t in a || t in b || t in c || t in e || t in f || t in g
  {
  }

  /** The plan holds exactly the items its toggles call for. */
  lemma ItemsMembers(inst: Instance, d: Desired, t: Item)
    ensures t in Items(inst, d) <==> Planned(inst, d, t)
  {
    InOneOfSix(CORE, DatabaseItems(d), AbbenayItems(d), [EnsureProxyToken], WorkloadItems(d), RouteItems(inst, d), t);
    CoreMembers(t);
    if Rank(t) < 3 || Rank(t) == 12 { PlannedAlways(inst, d, t); }
    DatabaseMembers(inst, d, t);
    AbbenayMembers(inst, d, t);
    WorkloadMembers(inst, d, t);
    RouteMembers(inst, d, t);
  }

  /** Ranks order the plan. */
  lemma Earlier(inst: Instance, d: Desired, t: Item, pc: nat) returns (i: nat)
    requires pc < |Items(inst, d)| && Planned(inst, d, t) && Rank(t) < Rank(Items(inst, d)[pc])
    ensures i < pc && Items(inst, d)[i] == t
  {
    ItemsMembers(inst, d, t);
    ItemsClimb(inst, d);
    i :| 0 <= i < |Items(inst, d)| && Items(inst, d)[i] == t;
    if pc < i { Ordered(Items(inst, d), 0, 21, pc, i); }
  }

  // ---- Writes ----

  /** A step writes its own item's object, whatever names the user chose. */
  lemma WritesOwnKey(inst: Instance, d: Desired, t: Item, seen: seq<Slot>, m: Material)
    requires Defaulted(inst, d) && Planned(inst, d, t) && Writes(NextAction(inst, d, t, seen, m))
    ensures NextAction(inst, d, t, seen, m).key == WriteKey(inst.name, t)
  {
  }
}
