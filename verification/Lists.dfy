/** Optional pieces of lists, and lists without repetition. */
module Lists {

  function When<T>(b: bool, s: seq<T>): seq<T> { if b then s else [] }

  lemma Regroup<T>(a: seq<T>, b: seq<T>, c: seq<T>)
    ensures a + b + c == a + (b + c)
  {
  }

  ghost predicate NoDup<T>(s: seq<T>) {
    forall i, j :: 0 <= i < j < |s| ==> s[i] != s[j]
  }

  lemma {:induction false} NoDupCounts<T>(s: seq<T>)
    ensures NoDup(s) <==> forall x :: x in s ==> multiset(s)[x] == 1
  {
    if |s| > 0 {
      var rest := s[1..];
      NoDupCounts(rest);
      assert s == [s[0]] + rest;
      assert multiset(s) == multiset{s[0]} + multiset(rest);
      if NoDup(s) {
        assert s[0] !in rest;
        forall x | x in s
          ensures multiset(s)[x] == 1
        {
          if x != s[0] { assert x in rest; }
        }
      } else if forall x :: x in s ==> multiset(s)[x] == 1 {
        assert s[0] in s;
        assert s[0] !in rest;
        forall x | x in rest
          ensures multiset(rest)[x] == 1
        {
          assert x in s;
        }
      }
    }
  }

  lemma NoDupPermuted<T>(a: seq<T>, b: seq<T>)
    requires NoDup(a) && multiset(a) == multiset(b)
    ensures NoDup(b)
  {
    NoDupCounts(a);
    NoDupCounts(b);
    forall x | x in b
      ensures x in a
    {
      assert x in multiset(b);
    }
  }
}
