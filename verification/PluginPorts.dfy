/** Port assignment for third-party Plugin sidecars: resolvePlugins of internal/resolve/desired.go. */
module PluginPorts {
  import opened Lists
  import opened Text

  const MIN_PORT := 50100
  const MAX_PORT := 50199
  const MAX_PLUGINS := 32

  /** One entry of spec.plugins; port 0 means "assign one". */
  datatype PluginSpec = PluginSpec(name: string, image: string, port: int, configMap: string)

  datatype ResolvedPlugin = ResolvedPlugin(name: string, image: string, port: int, configMap: string)

  predicate InRange(port: int) { MIN_PORT <= port <= MAX_PORT }

  ghost predicate UniqueNames(ps: seq<PluginSpec>) {
    forall i, j :: 0 <= i < j < |ps| ==> ps[i].name != ps[j].name
  }

  /** The CRD rules on spec.plugins: list size, unique names, explicit ports unique and in range. */
  ghost predicate Admitted(ps: seq<PluginSpec>) {
    && |ps| <= MAX_PLUGINS
    && UniqueNames(ps)
    && (forall p :: p in ps && p.port != 0 ==> InRange(p.port))
    && (forall i, j :: 0 <= i < j < |ps| && ps[i].port != 0 ==> ps[i].port != ps[j].port)
    && (forall p :: p in ps ==> PluginName(p.name))
  }

  /** `^[a-z0-9]+$` */
  predicate PluginName(s: string) {
    |s| > 0 && forall c :: c in s ==> 'a' <= c <= 'z' || '0' <= c <= '9'
  }

  // ---- What the ports must be, stated on the set of plugins ----

  ghost function Plugins(ps: seq<PluginSpec>): set<PluginSpec> { set p | p in ps }

  ghost function Explicit(ps: set<PluginSpec>): set<int> { set p | p in ps && p.port != 0 :: p.port }

  /** The auto plugins that precede `name`. */
  ghost function AutoBefore(ps: set<PluginSpec>, name: string): set<PluginSpec> {
    set p | p in ps && p.port == 0 && Less(p.name, name)
  }

  /** The k-th smallest port from `lo` on that is not in `taken`; 0 when there are not that many. */
  function KthFree(taken: set<int>, k: nat, lo: int): (port: int)
    ensures port != 0 && lo >= MIN_PORT ==> lo <= port <= MAX_PORT && port !in taken
    decreases MAX_PORT + 1 - lo
  {
    if lo > MAX_PORT then 0
    else if lo in taken then KthFree(taken, k, lo + 1)
    else if k == 0 then lo
    else KthFree(taken, k - 1, lo + 1)
  }

  /** What `p` resolves to among the plugins `ps`. */
  ghost function Assigned(ps: set<PluginSpec>, p: PluginSpec): ResolvedPlugin {
    ResolvedPlugin(p.name, p.image,
                   if p.port != 0 then p.port else KthFree(Explicit(ps), |AutoBefore(ps, p.name)|, MIN_PORT),
                   p.configMap)
  }

  ghost predicate StrictlySorted(out: seq<ResolvedPlugin>) {
    forall i, j :: 0 <= i < j < |out| ==> Less(out[i].name, out[j].name)
  }

  /** `out` lists, sorted by name, what each plugin of `all` resolves to. */
  ghost predicate ResolvesTo(all: set<PluginSpec>, out: seq<ResolvedPlugin>) {
    && StrictlySorted(out)
    && (forall p :: p in all ==> Assigned(all, p) in out)
    && (forall r :: r in out ==> exists p :: p in all && r == Assigned(all, p))
  }

  ghost predicate Resolves(ps: seq<PluginSpec>, out: seq<ResolvedPlugin>) {
    |out| == |ps| && ResolvesTo(Plugins(ps), out)
  }

  // ---- resolvePlugins ----

  function PluginKey(p: ResolvedPlugin): string { p.name }

  function IndexKey(ps: seq<PluginSpec>, i: int): string {
    if 0 <= i < |ps| then ps[i].name else ""
  }

  function Unassigned(p: PluginSpec): ResolvedPlugin { ResolvedPlugin(p.name, p.image, p.port, p.configMap) }

  ghost function ExplicitIn(ps: seq<PluginSpec>): set<int> { Explicit(Plugins(ps)) }

  /** `need` lists exactly the positions of the auto plugins, each once. */
  ghost predicate ListsAutos(ps: seq<PluginSpec>, need: seq<int>) {
    && (forall t :: 0 <= t < |need| ==> 0 <= need[t] < |ps| && ps[need[t]].port == 0)
    && (forall t, u :: 0 <= t < u < |need| ==> need[t] != need[u])
    && (forall i :: 0 <= i < |ps| && ps[i].port == 0 ==> i in need)
  }

  /** The first pass: copy every plugin, collect the explicit ports and the positions without one. */
  method CopyPlugins(plugins: seq<PluginSpec>, out: array<ResolvedPlugin>) returns (used: set<int>, need: seq<int>)
    requires out.Length == |plugins|
    modifies out
    ensures forall i :: 0 <= i < |plugins| ==> out[i] == Unassigned(plugins[i])
    ensures used == ExplicitIn(plugins)
    ensures ListsAutos(plugins, need)
  {
    used, need := {}, [];
    for i := 0 to |plugins|
      invariant forall j :: 0 <= j < i ==> out[j] == Unassigned(plugins[j])
      invariant used == ExplicitIn(plugins[..i])
      invariant ListsAutos(plugins[..i], need)
    {
      var p := plugins[i];
      out[i] := Unassigned(p);
      assert plugins[..i + 1] == plugins[..i] + [p];
      assert Plugins(plugins[..i + 1]) == Plugins(plugins[..i]) + {p};
      if p.port != 0 {
        used := used + {p.port};
      } else {
        need := need + [i];
      }
    }
    assert plugins[..|plugins|] == plugins;
  }

  /** The first `j` plugins of `need` have their ports, the rest are untouched, and the cursor stands at `next`. */
  ghost predicate CursorAt(ps: seq<PluginSpec>, out: seq<ResolvedPlugin>, explicit: set<int>, need: seq<int>,
                           used: set<int>, next: int, j: int)
    requires |out| == |ps| && ListsAutos(ps, need) && 0 <= j <= |need|
  {
    && (forall t :: 0 <= t < j ==>
          out[need[t]] == Unassigned(ps[need[t]]).(port := KthFree(explicit, t, MIN_PORT)) && out[need[t]].port < next)
    && (forall t :: j <= t < |need| ==> out[need[t]] == Unassigned(ps[need[t]]))
    && (forall i :: 0 <= i < |ps| && ps[i].port != 0 ==> out[i] == Unassigned(ps[i]))
    // everything below the cursor is taken, and from the cursor on only explicit ports are
    && (forall q :: MIN_PORT <= q < next && q <= MAX_PORT ==> q in used)
    && (forall q :: q >= next ==> (q in used <==> q in explicit))
    // counting free ports from the cursor skips exactly the j ports handed out so far
    && (forall k :: k >= j ==> KthFree(explicit, k, MIN_PORT) == KthFree(explicit, k - j, next))
  }

  lemma {:induction false} CursorSkips(ps: seq<PluginSpec>, out: seq<ResolvedPlugin>, explicit: set<int>,
                                       need: seq<int>, used: set<int>, next: int, j: int, stop: int)
    requires |out| == |ps| && ListsAutos(ps, need) && 0 <= j <= |need|
    requires CursorAt(ps, out, explicit, need, used, next, j)
    requires MIN_PORT <= next <= stop
    requires forall q :: next <= q < stop && q <= MAX_PORT ==> q in used
    ensures CursorAt(ps, out, explicit, need, used, stop, j)
    decreases stop - next
  {
    if next < stop {
      CursorSkips(ps, out, explicit, need, used, next + 1, j, stop);
    }
  }

  lemma CursorTakes(ps: seq<PluginSpec>, out: seq<ResolvedPlugin>, explicit: set<int>, need: seq<int>,
                    used: set<int>, next: int, j: int)
    requires |out| == |ps| && ListsAutos(ps, need) && 0 <= j < |need|
    requires CursorAt(ps, out, explicit, need, used, next, j)
    requires MIN_PORT <= next <= MAX_PORT && next !in used
    ensures CursorAt(ps, out[need[j] := out[need[j]].(port := next)], explicit, need, used + {next}, next + 1, j + 1)
  {
    assert KthFree(explicit, j, MIN_PORT) == KthFree(explicit, 0, next) == next;
    forall k | k >= j + 1
      ensures KthFree(explicit, k, MIN_PORT) == KthFree(explicit, k - (j + 1), next + 1)
    {
      assert KthFree(explicit, k, MIN_PORT) == KthFree(explicit, k - j, next);
    }
  }

  /** Every auto plugin of `need` sits on its free port, and the explicit ports are kept. */
  ghost predicate PortsDone(ps: seq<PluginSpec>, out: seq<ResolvedPlugin>, explicit: set<int>, need: seq<int>)
    requires |out| == |ps| && ListsAutos(ps, need)
  {
    && (forall t :: 0 <= t < |need| ==>
          out[need[t]] == Unassigned(ps[need[t]]).(port := KthFree(explicit, t, MIN_PORT)))
    && (forall i :: 0 <= i < |ps| && ps[i].port != 0 ==> out[i] == Unassigned(ps[i]))
  }

  lemma CursorEnds(ps: seq<PluginSpec>, out: seq<ResolvedPlugin>, explicit: set<int>, need: seq<int>,
                   used: set<int>, next: int, j: int)
    requires |out| == |ps| && ListsAutos(ps, need) && 0 <= j <= |need|
    requires CursorAt(ps, out, explicit, need, used, next, j)
    requires j == |need| || next > MAX_PORT
    ensures PortsDone(ps, out, explicit, need)
  {
    forall t | j <= t < |need|
      ensures KthFree(explicit, t, MIN_PORT) == 0
    {
      assert KthFree(explicit, t, MIN_PORT) == KthFree(explicit, t - j, next);
    }
  }

  /** The inner loop: move the cursor to the next port that is not taken, or past the range. */
  method Advance(used: set<int>, from: int) returns (next: int)
    requires from >= MIN_PORT
    ensures next >= from
    ensures next <= MAX_PORT ==> next !in used
    ensures forall q :: from <= q < next && q <= MAX_PORT ==> q in used
  {
    next := from;
    while true
      invariant next >= from
      invariant forall q :: from <= q < next && q <= MAX_PORT ==> q in used
      decreases MAX_PORT + 1 - next
    {
      if next !in used && next <= MAX_PORT {
        break;
      }
      next := next + 1;
      if next > MAX_PORT {
        break;
      }
    }
  }

  /** The cursor: each listed plugin takes the next port at or after `next` that is not taken. */
  method AssignPorts(plugins: seq<PluginSpec>, out: array<ResolvedPlugin>, explicit: set<int>, need: seq<int>)
    requires out.Length == |plugins| && ListsAutos(plugins, need)
    requires forall i :: 0 <= i < |plugins| ==> out[i] == Unassigned(plugins[i])
    modifies out
    ensures PortsDone(plugins, out[..], explicit, need)
  {
    var used := explicit;
    var next := MIN_PORT;
    var j := 0;
    ghost var now := out[..];
    while j < |need|
      invariant 0 <= j <= |need|
      invariant next >= MIN_PORT
      invariant now == out[..]
      invariant CursorAt(plugins, now, explicit, need, used, next, j)
    {
      var free := Advance(used, next);
      CursorSkips(plugins, now, explicit, need, used, next, j, free);
      next := free;
      if next > MAX_PORT {
        break;
      }
      CursorTakes(plugins, now, explicit, need, used, next, j);
      var i := need[j];
      ghost var was := now;
      out[i] := out[i].(port := next);
      now := out[..];
      assert now == was[i := was[i].(port := next)];
      used := used + {next};
      next := next + 1;
      j := j + 1;
    }
    CursorEnds(plugins, now, explicit, need, used, next, j);
  }

  // ---- The positions, once sorted by name, count the auto plugins before each ----

  ghost function FirstAutos(ps: seq<PluginSpec>, need: seq<int>, t: nat): set<PluginSpec>
    requires ListsAutos(ps, need) && t <= |need|
  {
    set u | 0 <= u < t :: ps[need[u]]
  }

  lemma {:induction false} FirstAutosCount(ps: seq<PluginSpec>, need: seq<int>, t: nat)
    requires ListsAutos(ps, need) && UniqueNames(ps) && t <= |need|
    ensures |FirstAutos(ps, need, t)| == t
  {
    if t > 0 {
      FirstAutosCount(ps, need, t - 1);
      assert ps[need[t - 1]] !in FirstAutos(ps, need, t - 1);
      assert FirstAutos(ps, need, t) == FirstAutos(ps, need, t - 1) + {ps[need[t - 1]]};
    }
  }

  ghost predicate NeedSorted(ps: seq<PluginSpec>, need: seq<int>)
    requires ListsAutos(ps, need)
  {
    forall t, u :: 0 <= t < u < |need| ==> Less(ps[need[t]].name, ps[need[u]].name)
  }

  lemma RankIsPosition(ps: seq<PluginSpec>, need: seq<int>, t: nat)
    requires ListsAutos(ps, need) && UniqueNames(ps) && NeedSorted(ps, need) && t < |need|
    ensures |AutoBefore(Plugins(ps), ps[need[t]].name)| == t
  {
    var name := ps[need[t]].name;
    forall p | p in AutoBefore(Plugins(ps), name)
      ensures p in FirstAutos(ps, need, t)
    {
      var i :| 0 <= i < |ps| && ps[i] == p;
      var u :| 0 <= u < |need| && need[u] == i;
      LessTotal(p.name, name);
      assert u < t;
    }
    assert AutoBefore(Plugins(ps), name) == FirstAutos(ps, need, t);
    FirstAutosCount(ps, need, t);
  }

  lemma DoneIsAssigned(ps: seq<PluginSpec>, out: seq<ResolvedPlugin>, need: seq<int>)
    requires |out| == |ps| && ListsAutos(ps, need) && UniqueNames(ps) && NeedSorted(ps, need)
    requires PortsDone(ps, out, ExplicitIn(ps), need)
    ensures forall i :: 0 <= i < |ps| ==> out[i] == Assigned(Plugins(ps), ps[i])
  {
    forall i | 0 <= i < |ps|
      ensures out[i] == Assigned(Plugins(ps), ps[i])
    {
      if ps[i].port == 0 {
        var t :| 0 <= t < |need| && need[t] == i;
        RankIsPosition(ps, need, t);
      }
    }
  }

  lemma PermutedAutos(ps: seq<PluginSpec>, need: seq<int>, sorted: seq<int>)
    requires ListsAutos(ps, need) && multiset(need) == multiset(sorted)
    ensures ListsAutos(ps, sorted)
  {
    forall t | 0 <= t < |sorted|
      ensures sorted[t] in need
    {
      assert sorted[t] in multiset(need);
    }
    forall i | i in need
      ensures i in sorted
    {
      assert i in multiset(sorted);
    }
    NoDupPermuted(need, sorted);
  }

  lemma SortedNeedIsStrict(ps: seq<PluginSpec>, need: seq<int>, key: int -> string)
    requires ListsAutos(ps, need) && UniqueNames(ps) && Sorted(need, key)
    requires forall i :: 0 <= i < |ps| ==> key(i) == ps[i].name
    ensures NeedSorted(ps, need)
  {
    forall t, u | 0 <= t < u < |need|
      ensures Less(ps[need[t]].name, ps[need[u]].name)
    {
      LessTotal(key(need[t]), key(need[u]));
      assert need[t] < need[u] || need[u] < need[t];
    }
  }

  /** Sorting the assigned plugins by name gives the resolution. */
  lemma SortedIsResolution(ps: seq<PluginSpec>, raw: seq<ResolvedPlugin>, out: seq<ResolvedPlugin>)
    requires UniqueNames(ps) && |raw| == |ps| == |out|
    requires forall i :: 0 <= i < |ps| ==> raw[i] == Assigned(Plugins(ps), ps[i])
    requires Sorted(out, PluginKey) && multiset(out) == multiset(raw)
    ensures Resolves(ps, out)
  {
    var all := Plugins(ps);
    forall p | p in all
      ensures Assigned(all, p) in out
    {
      var i :| 0 <= i < |ps| && ps[i] == p;
      assert raw[i] in multiset(out);
    }
    forall r | r in out
      ensures exists p :: p in all && r == Assigned(all, p)
    {
      assert r in multiset(raw);
      var i :| 0 <= i < |raw| && raw[i] == r;
      assert ps[i] in all;
    }
    forall i, j | 0 <= i < j < |out|
      ensures Less(out[i].name, out[j].name)
    {
      LessTotal(PluginKey(out[i]), PluginKey(out[j]));
      DistinctPermuted(raw, out, i, j);
    }
  }

  lemma DistinctPermuted(raw: seq<ResolvedPlugin>, out: seq<ResolvedPlugin>, i: int, j: int)
    requires multiset(out) == multiset(raw) && 0 <= i < j < |out|
    requires forall t, u :: 0 <= t < u < |raw| ==> raw[t].name != raw[u].name
    ensures out[i].name != out[j].name
  {
    NoDupPermuted(raw, out);
    assert out[i] in multiset(raw) && out[j] in multiset(raw);
    var t :| 0 <= t < |raw| && raw[t] == out[i];
    var u :| 0 <= u < |raw| && raw[u] == out[j];
    assert t < u || u < t;
  }

  method ResolvePlugins(plugins: seq<PluginSpec>) returns (out: array<ResolvedPlugin>)
    ensures fresh(out) && out.Length == |plugins|
    ensures Sorted(out[..], PluginKey)
    ensures forall p :: p in plugins && p.port != 0 ==> Unassigned(p) in out[..]
    ensures UniqueNames(plugins) ==> Resolves(plugins, out[..])
  {
    out := new ResolvedPlugin[|plugins|];
    if |plugins| == 0 {
      return;
    }
    var used, autos := CopyPlugins(plugins, out);
    var key := (i: int) => IndexKey(plugins, i);
    SortBySorts(autos, key);
    var need := SortBy(autos, key);
    PermutedAutos(plugins, autos, need);
    AssignPorts(plugins, out, used, need);
    ghost var raw := out[..];
    if UniqueNames(plugins) {
      SortedNeedIsStrict(plugins, need, key);
      DoneIsAssigned(plugins, raw, need);
    }
    SortBySorts(out[..], PluginKey);
    var sorted := SortBy(out[..], PluginKey);
    forall i | 0 <= i < out.Length {
      out[i] := sorted[i];
    }
    assert out[..] == sorted;
    if UniqueNames(plugins) {
      SortedIsResolution(plugins, raw, sorted);
    }
    forall p | p in plugins && p.port != 0
      ensures Unassigned(p) in out[..]
    {
      var i :| 0 <= i < |plugins| && plugins[i] == p;
      assert raw[i] in multiset(sorted);
    }
  }
}
