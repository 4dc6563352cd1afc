/** What resolvePlugins promises, proved about the resolution the method computes. */
module PluginPortLaws {
  import opened Text
  import opened PluginPorts

  // ---- The resolution is unique, so input order cannot matter ----

  lemma {:induction false} StrictlySortedUnique(a: seq<ResolvedPlugin>, b: seq<ResolvedPlugin>)
    requires StrictlySorted(a) && StrictlySorted(b)
    requires forall r :: r in a <==> r in b
    ensures a == b
  {
    assert |a| > 0 ==> a[0] in b;
    assert |b| > 0 ==> b[0] in a;
    if |a| > 0 && |b| > 0 {
      LessTotal(a[0].name, b[0].name);
      assert a[0] == b[0];
      assert a == [a[0]] + a[1..] && b == [b[0]] + b[1..];
      LessTotal(a[0].name, a[0].name);
      assert a[0] !in a[1..] && b[0] !in b[1..];
      forall r
        ensures r in a[1..] <==> r in b[1..]
      {
        assert r in a <==> r == a[0] || r in a[1..];
        assert r in b <==> r == b[0] || r in b[1..];
      }
      StrictlySortedUnique(a[1..], b[1..]);
    }
  }

  /** Any two resolutions of the same plugins, in whatever order, are equal. */
  lemma OrderIndependent(ps: seq<PluginSpec>, qs: seq<PluginSpec>,
                         out: seq<ResolvedPlugin>, out': seq<ResolvedPlugin>)
    requires multiset(ps) == multiset(qs)
    requires Resolves(ps, out) && Resolves(qs, out')
    ensures out == out'
  {
    forall p
      ensures p in ps <==> p in qs
    {
      assert p in ps <==> p in multiset(ps);
    }
    assert Plugins(ps) == Plugins(qs);
    ResolutionUnique(Plugins(ps), out, out');
  }

  lemma ResolutionUnique(all: set<PluginSpec>, out: seq<ResolvedPlugin>, out': seq<ResolvedPlugin>)
    requires ResolvesTo(all, out) && ResolvesTo(all, out')
    ensures out == out'
  {
    StrictlySortedUnique(out, out');
  }

  // ---- Counting free ports ----

  /** How many ports of `lo..MAX_PORT` are not in `taken`. */
  function FreeFrom(taken: set<int>, lo: int): nat
    decreases MAX_PORT + 1 - lo
  {
    if lo > MAX_PORT then 0 else (if lo in taken then 0 else 1) + FreeFrom(taken, lo + 1)
  }

  /** There is a k-th free port exactly when more than k ports are free. */
  lemma {:induction false} KthFreeExists(taken: set<int>, k: nat, lo: int)
    requires lo >= MIN_PORT
    ensures KthFree(taken, k, lo) != 0 <==> k < FreeFrom(taken, lo)
    decreases MAX_PORT + 1 - lo
  {
    if lo <= MAX_PORT {
      if lo in taken { KthFreeExists(taken, k, lo + 1); }
      else if k > 0 { KthFreeExists(taken, k - 1, lo + 1); }
    }
  }

  /** Later free ports are larger. */
  lemma {:induction false} KthFreeIncreasing(taken: set<int>, j: nat, k: nat, lo: int)
    requires lo >= MIN_PORT && j < k && KthFree(taken, k, lo) != 0
    ensures 0 != KthFree(taken, j, lo) < KthFree(taken, k, lo)
    decreases MAX_PORT + 1 - lo
  {
    if lo in taken { KthFreeIncreasing(taken, j, k, lo + 1); }
    else if j > 0 { KthFreeIncreasing(taken, j - 1, k - 1, lo + 1); }
  }

  /** The k-th free port has exactly k free ports below it: it is the k-th smallest. */
  lemma {:induction false} KthFreeRank(taken: set<int>, k: nat, lo: int)
    requires lo >= MIN_PORT && KthFree(taken, k, lo) != 0
    ensures FreeFrom(taken, lo) == k + FreeFrom(taken, KthFree(taken, k, lo))
    decreases MAX_PORT + 1 - lo
  {
    if lo in taken { KthFreeRank(taken, k, lo + 1); }
    else if k > 0 { KthFreeRank(taken, k - 1, lo + 1); }
  }

  /** Every free port is some k-th free port. */
  lemma {:induction false} EveryFreePortHasRank(taken: set<int>, port: int, lo: int) returns (k: nat)
    requires MIN_PORT <= lo <= port <= MAX_PORT && port !in taken
    ensures k < FreeFrom(taken, lo) && KthFree(taken, k, lo) == port
    decreases port - lo
  {
    if lo == port {
      k := 0;
    } else {
      var j := EveryFreePortHasRank(taken, port, lo + 1);
      k := if lo in taken then j else j + 1;
    }
  }

  /** Pigeonhole: at most |taken| of the ports can be taken. */
  lemma {:induction false} FreeAtLeast(taken: set<int>, lo: int)
    requires lo <= MAX_PORT + 1
    ensures FreeFrom(taken, lo) >= MAX_PORT + 1 - lo - |taken|
    decreases MAX_PORT + 1 - lo
  {
    if lo <= MAX_PORT {
      if lo in taken {
        FreeAtLeast(taken - {lo}, lo + 1);
        FreeFromFrame(taken, lo, lo + 1);
      } else {
        FreeAtLeast(taken, lo + 1);
      }
    }
  }

  lemma {:induction false} FreeFromFrame(taken: set<int>, port: int, lo: int)
    requires port < lo
    ensures FreeFrom(taken - {port}, lo) == FreeFrom(taken, lo)
    decreases MAX_PORT + 1 - lo
  {
    if lo <= MAX_PORT { FreeFromFrame(taken, port, lo + 1); }
  }

  // ---- No exhaustion under the CRD rules ----

  lemma ExplicitAndBefore(ps: seq<PluginSpec>, p: PluginSpec)
    requires p in ps && p.port == 0
    ensures |ExplicitIn(ps)| + |AutoBefore(Plugins(ps), p.name)| < |ps|
  {
    var explicit := set q | q in ps && q.port != 0;
    var before := AutoBefore(Plugins(ps), p.name);
    LessTotal(p.name, p.name);
    ImageNotLarger(explicit);
    assert ExplicitIn(ps) == set q | q in explicit :: q.port;
    assert explicit !! before && p !in explicit + before;
    assert explicit + before + {p} <= Plugins(ps);
    SubsetSize(explicit + before + {p}, Plugins(ps));
    ElementsNotMore(ps);
  }

  lemma {:induction false} ImageNotLarger(ps: set<PluginSpec>)
    ensures |set q | q in ps :: q.port| <= |ps|
  {
    if ps != {} {
      var p :| p in ps;
      ImageNotLarger(ps - {p});
      assert (set q | q in ps :: q.port) == (set q | q in ps - {p} :: q.port) + {p.port};
    } else {
      assert (set q | q in ps :: q.port) == {};
    }
  }

  lemma {:induction false} ElementsNotMore(ps: seq<PluginSpec>)
    ensures |Plugins(ps)| <= |ps|
  {
    if |ps| > 0 {
      ElementsNotMore(ps[1..]);
      assert ps == [ps[0]] + ps[1..];
      assert Plugins(ps) == {ps[0]} + Plugins(ps[1..]);
    }
  }

  lemma {:induction false} SubsetSize<T>(a: set<T>, b: set<T>)
    requires a <= b
    ensures |a| <= |b|
  {
    assert b == a + (b - a);
  }

  /** Under the CRD rules every plugin gets a port of the range, and no two plugins share one. */
  lemma NeverExhausted(ps: seq<PluginSpec>, out: seq<ResolvedPlugin>)
    requires Admitted(ps) && Resolves(ps, out)
    ensures forall i :: 0 <= i < |out| ==> InRange(out[i].port)
    ensures forall i, j :: 0 <= i < j < |out| ==> out[i].port != out[j].port
  {
    var all := Plugins(ps);
    forall p | p in all
      ensures InRange(Assigned(all, p).port)
    {
      if p.port == 0 {
        ExplicitAndBefore(ps, p);
        FreeAtLeast(Explicit(all), MIN_PORT);
        KthFreeExists(Explicit(all), |AutoBefore(all, p.name)|, MIN_PORT);
      }
    }
    forall i | 0 <= i < |out|
      ensures InRange(out[i].port)
    {
      assert out[i] in out;
    }
    forall i, j | 0 <= i < j < |out|
      ensures out[i].port != out[j].port
    {
      assert out[i] in out && out[j] in out;
      var p :| p in all && out[i] == Assigned(all, p);
      var q :| q in all && out[j] == Assigned(all, q);
      LessTotal(p.name, q.name);
      DistinctPorts(ps, p, q);
    }
  }

  lemma DistinctPorts(ps: seq<PluginSpec>, p: PluginSpec, q: PluginSpec)
    requires Admitted(ps) && p in ps && q in ps && Less(p.name, q.name)
    requires Assigned(Plugins(ps), p).port != 0 && Assigned(Plugins(ps), q).port != 0
    ensures Assigned(Plugins(ps), p).port != Assigned(Plugins(ps), q).port
  {
    var all := Plugins(ps);
    if p.port == 0 && q.port == 0 {
      BeforeGrows(all, p, q);
      KthFreeIncreasing(Explicit(all), |AutoBefore(all, p.name)|, |AutoBefore(all, q.name)|, MIN_PORT);
    } else if p.port != 0 && q.port != 0 {
      var i :| 0 <= i < |ps| && ps[i] == p;
      var j :| 0 <= j < |ps| && ps[j] == q;
      LessTotal(p.name, q.name);
      assert i < j || j < i;
    } else {
      assert p.port in Explicit(all) || q.port in Explicit(all);
    }
  }

  lemma BeforeGrows(all: set<PluginSpec>, p: PluginSpec, q: PluginSpec)
    requires p in all && p.port == 0 && Less(p.name, q.name)
    ensures |AutoBefore(all, p.name)| < |AutoBefore(all, q.name)|
  {
    var a, b := AutoBefore(all, p.name), AutoBefore(all, q.name);
    forall x | x in a
      ensures x in b
    {
      LessTransitive(x.name, p.name, q.name);
    }
    LessTotal(p.name, p.name);
    assert a + {p} <= b && p !in a;
    SubsetSize(a + {p}, b);
  }

  // ---- The cursor loop refines "the k-th smallest free port for the k-th auto plugin" ----

  ghost function FreePorts(taken: set<int>, lo: int, hi: int): set<int> {
    set q | lo <= q < hi && q !in taken
  }

  lemma {:induction false} FreePortsCount(taken: set<int>, lo: int, hi: int)
    requires lo <= hi <= MAX_PORT + 1
    ensures |FreePorts(taken, lo, hi)| + FreeFrom(taken, hi) == FreeFrom(taken, lo)
    decreases hi - lo
  {
    if lo < hi {
      FreePortsCount(taken, lo + 1, hi);
      if lo in taken {
        assert FreePorts(taken, lo, hi) == FreePorts(taken, lo + 1, hi);
      } else {
        assert FreePorts(taken, lo, hi) == FreePorts(taken, lo + 1, hi) + {lo};
      }
    } else {
      assert FreePorts(taken, lo, hi) == {};
    }
  }

  /** An auto plugin's port is free and has as many free ports below it as the plugin has auto plugins before
      it by name; it gets port 0 exactly when the plugins before it use up every free port. */
  lemma AutoPortIsKthSmallest(all: set<PluginSpec>, p: PluginSpec)
    requires p.port == 0
    ensures var port := Assigned(all, p).port; var explicit := Explicit(all); var k := |AutoBefore(all, p.name)|;
            if |FreePorts(explicit, MIN_PORT, MAX_PORT + 1)| <= k then port == 0
            else InRange(port) && port !in explicit && |FreePorts(explicit, MIN_PORT, port)| == k
  {
    var port, explicit, k := Assigned(all, p).port, Explicit(all), |AutoBefore(all, p.name)|;
    FreePortsCount(explicit, MIN_PORT, MAX_PORT + 1);
    KthFreeExists(explicit, k, MIN_PORT);
    if port != 0 {
      KthFreeRank(explicit, k, MIN_PORT);
      FreePortsCount(explicit, MIN_PORT, port);
    }
  }

  // ---- Fixed point ----

  ghost predicate NamesIdentify(all: set<PluginSpec>) {
    forall p, q :: p in all && q in all && p.name == q.name ==> p == q
  }

  lemma {:induction false} LastByName(some: set<PluginSpec>) returns (last: PluginSpec)
    requires some != {}
    ensures last in some && forall q :: q in some ==> !Less(last.name, q.name)
  {
    var p :| p in some;
    if some == {p} {
      last := p;
      LessTotal(p.name, p.name);
    } else {
      var l := LastByName(some - {p});
      last := if Less(l.name, p.name) then p else l;
      LessTotal(l.name, p.name);
      LessTotal(p.name, p.name);
      forall q | q in some
        ensures !Less(last.name, q.name)
      {
        if Less(l.name, p.name) && q != p && Less(p.name, q.name) {
          LessTransitive(l.name, p.name, q.name);
        }
      }
    }
  }

  /** Every number up to an auto plugin's position is the position of some auto plugin. */
  lemma {:induction false} PositionsFilled(all: set<PluginSpec>, p: PluginSpec, k: nat) returns (q: PluginSpec)
    requires NamesIdentify(all) && p in all && p.port == 0 && k <= |AutoBefore(all, p.name)|
    ensures q in all && q.port == 0 && |AutoBefore(all, q.name)| == k
    decreases |AutoBefore(all, p.name)|
  {
    var before := AutoBefore(all, p.name);
    if |before| == k {
      q := p;
    } else {
      var last := LastByName(before);
      forall x | x in before - {last}
        ensures x in AutoBefore(all, last.name)
      {
        LessTotal(x.name, last.name);
      }
      forall x | x in AutoBefore(all, last.name)
        ensures x in before - {last}
      {
        LessTransitive(x.name, last.name, p.name);
        LessTotal(last.name, last.name);
      }
      assert AutoBefore(all, last.name) == before - {last};
      q := PositionsFilled(all, last, k);
    }
  }

  /** The resolved plugins as spec entries with their ports written out. */
  function AsSpecs(out: seq<ResolvedPlugin>): seq<PluginSpec> {
    seq(|out|, i requires 0 <= i < |out| => PluginSpec(out[i].name, out[i].image, out[i].port, out[i].configMap))
  }

  lemma AsSpecsHolds(out: seq<ResolvedPlugin>)
    ensures forall p :: p in AsSpecs(out) <==> ResolvedPlugin(p.name, p.image, p.port, p.configMap) in out
  {
    forall p
      ensures p in AsSpecs(out) <==> ResolvedPlugin(p.name, p.image, p.port, p.configMap) in out
    {
      if p in AsSpecs(out) {
        var i :| 0 <= i < |out| && AsSpecs(out)[i] == p;
        assert out[i] == ResolvedPlugin(p.name, p.image, p.port, p.configMap);
      }
      if ResolvedPlugin(p.name, p.image, p.port, p.configMap) in out {
        var i :| 0 <= i < |out| && out[i] == ResolvedPlugin(p.name, p.image, p.port, p.configMap);
        assert AsSpecs(out)[i] == p;
      }
    }
  }

  /** If some plugin was left without a port, the resolution uses every port of the range. */
  lemma ExhaustedUsesAll(all: set<PluginSpec>, out: seq<ResolvedPlugin>, r: ResolvedPlugin, port: int)
    requires NamesIdentify(all) && ResolvesTo(all, out) && r in out && r.port == 0 && InRange(port)
    ensures exists u :: u in out && u.port == port
  {
    var explicit := Explicit(all);
    if port in explicit {
      var p :| p in all && p.port == port;
      assert Assigned(all, p) in out;
    } else {
      var p :| p in all && r == Assigned(all, p);
      var k := EveryFreePortHasRank(explicit, port, MIN_PORT);
      KthFreeExists(explicit, |AutoBefore(all, p.name)|, MIN_PORT);
      var q := PositionsFilled(all, p, k);
      assert Assigned(all, q) in out;
    }
  }

  lemma {:induction false} NoneFree(taken: set<int>, k: nat, lo: int)
    requires forall q :: lo <= q <= MAX_PORT ==> q in taken
    ensures KthFree(taken, k, lo) == 0
    decreases MAX_PORT + 1 - lo
  {
    if lo <= MAX_PORT { NoneFree(taken, k, lo + 1); }
  }

  /** Resolving a resolution again, its ports now explicit, changes nothing. */
  lemma ResolutionIsFixedPoint(ps: seq<PluginSpec>, out: seq<ResolvedPlugin>)
    requires UniqueNames(ps) && Resolves(ps, out)
    ensures Resolves(AsSpecs(out), out)
  {
    var again := Plugins(AsSpecs(out));
    assert NamesIdentify(Plugins(ps));
    AsSpecsHolds(out);
    forall p | p in again
      ensures Assigned(again, p) == ResolvedPlugin(p.name, p.image, p.port, p.configMap)
    {
      if p.port == 0 {
        var r := ResolvedPlugin(p.name, p.image, p.port, p.configMap);
        forall port | MIN_PORT <= port <= MAX_PORT
          ensures port in Explicit(again)
        {
          ExhaustedUsesAll(Plugins(ps), out, r, port);
          var u :| u in out && u.port == port;
          assert PluginSpec(u.name, u.image, u.port, u.configMap) in again;
        }
        NoneFree(Explicit(again), |AutoBefore(again, p.name)|, MIN_PORT);
      }
    }
    forall r | r in out
      ensures exists p :: p in again && r == Assigned(again, p)
    {
      assert PluginSpec(r.name, r.image, r.port, r.configMap) in again;
    }
  }

  // ---- Locality of reallocation ----

  /** Adding an auto plugin keeps the port of every auto plugin before it and never lowers a later one. */
  lemma InsertAuto(all: set<PluginSpec>, x: PluginSpec, p: PluginSpec)
    requires x.port == 0 && x !in all && p in all
    ensures !Less(x.name, p.name) ==> Assigned(all + {x}, p) == Assigned(all, p)
    ensures Less(x.name, p.name) && p.port == 0 && Assigned(all + {x}, p).port != 0 ==>
              Assigned(all, p).port < Assigned(all + {x}, p).port
  {
    assert Explicit(all + {x}) == Explicit(all);
    var k := |AutoBefore(all, p.name)|;
    if Less(x.name, p.name) {
      assert AutoBefore(all + {x}, p.name) == AutoBefore(all, p.name) + {x};
      if p.port == 0 && KthFree(Explicit(all), k + 1, MIN_PORT) != 0 {
        KthFreeIncreasing(Explicit(all), k, k + 1, MIN_PORT);
      }
    } else {
      assert AutoBefore(all + {x}, p.name) == AutoBefore(all, p.name);
    }
  }

  /** Taking one more port away shifts the free ports from that port on by one, and only those. */
  lemma {:induction false} KthFreeWithout(taken: set<int>, port: int, k: nat, lo: int)
    requires MIN_PORT <= lo <= port <= MAX_PORT && port !in taken
    ensures KthFree(taken + {port}, k, lo) ==
            if KthFree(taken, k, lo) != 0 && KthFree(taken, k, lo) < port then KthFree(taken, k, lo)
            else KthFree(taken, k + 1, lo)
    decreases port - lo
  {
    if lo == port {
      KthFreeAbove(taken, port, k, lo + 1);
    } else if lo in taken {
      KthFreeWithout(taken, port, k, lo + 1);
    } else if k > 0 {
      KthFreeWithout(taken, port, k - 1, lo + 1);
    }
  }

  lemma {:induction false} KthFreeAbove(taken: set<int>, port: int, k: nat, lo: int)
    requires port < lo
    ensures KthFree(taken + {port}, k, lo) == KthFree(taken, k, lo)
    decreases MAX_PORT + 1 - lo
  {
    if lo <= MAX_PORT {
      if lo in taken { KthFreeAbove(taken, port, k, lo + 1); }
      else if k > 0 { KthFreeAbove(taken, port, k - 1, lo + 1); }
    }
  }

  /** Adding a plugin with a free explicit port keeps every auto port below it and moves each other auto plugin
      to the next port that is free among the old plugins. */
  lemma InsertExplicit(all: set<PluginSpec>, x: PluginSpec, p: PluginSpec)
    requires InRange(x.port) && x.port !in Explicit(all) && x !in all && p in all && p.port == 0
    ensures var before, after := Assigned(all, p).port, Assigned(all + {x}, p).port;
            if before != 0 && before < x.port then after == before
            else after == KthFree(Explicit(all), |AutoBefore(all, p.name)| + 1, MIN_PORT)
    ensures var before, after := Assigned(all, p).port, Assigned(all + {x}, p).port;
            before >= x.port && after != 0 ==> FreePorts(Explicit(all), before, after) == {before}
  {
    var k, explicit := |AutoBefore(all, p.name)|, Explicit(all);
    assert Explicit(all + {x}) == explicit + {x.port};
    assert AutoBefore(all + {x}, p.name) == AutoBefore(all, p.name);
    KthFreeWithout(explicit, x.port, k, MIN_PORT);
    var before, after := Assigned(all, p).port, Assigned(all + {x}, p).port;
    if before >= x.port && after != 0 {
      NextFree(explicit, k, MIN_PORT);
    }
  }

  /** Between the k-th and the (k+1)-th free port nothing is free. */
  lemma {:induction false} NextFree(taken: set<int>, k: nat, lo: int)
    requires lo >= MIN_PORT && KthFree(taken, k + 1, lo) != 0
    ensures 0 != KthFree(taken, k, lo) < KthFree(taken, k + 1, lo)
    ensures FreePorts(taken, KthFree(taken, k, lo), KthFree(taken, k + 1, lo)) == {KthFree(taken, k, lo)}
    decreases MAX_PORT + 1 - lo
  {
    if lo in taken { NextFree(taken, k, lo + 1); }
    else if k > 0 { NextFree(taken, k - 1, lo + 1); }
    else { FirstFree(taken, lo + 1); }
  }

  lemma {:induction false} FirstFree(taken: set<int>, lo: int)
    requires lo >= MIN_PORT && KthFree(taken, 0, lo) != 0
    ensures forall q :: lo <= q < KthFree(taken, 0, lo) ==> q in taken
    decreases MAX_PORT + 1 - lo
  {
    if lo in taken { FirstFree(taken, lo + 1); }
  }
}
