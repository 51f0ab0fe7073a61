/** Stable sorting by descending key, as JavaScript's `Array.prototype.sort` does it. */
module StableSorting {

  function InsertDesc<T>(t: seq<T>, x: T, key: T -> real): seq<T> {
    if t == [] then [x]
    else if key(t[|t| - 1]) >= key(x) then t + [x]
    else InsertDesc(t[..|t| - 1], x, key) + [t[|t| - 1]]
  }

  function SortDesc<T>(s: seq<T>, key: T -> real): seq<T> {
    if s == [] then [] else InsertDesc(SortDesc(s[..|s| - 1], key), s[|s| - 1], key)
  }

  ghost predicate Descending<T>(s: seq<T>, key: T -> real) {
    forall i, j :: 0 <= i < j < |s| ==> key(s[i]) >= key(s[j])
  }

  /** The elements with key `k`, in order. */
  function WithKey<T>(s: seq<T>, key: T -> real, k: real): seq<T> {
    if s == [] then [] else WithKey(s[..|s| - 1], key, k) + (if key(s[|s| - 1]) == k then [s[|s| - 1]] else [])
  }

  lemma {:induction false} InsertDescMembers<T>(t: seq<T>, x: T, key: T -> real)
    ensures multiset(InsertDesc(t, x, key)) == multiset(t) + multiset{x}
  {
    if t != [] && key(t[|t| - 1]) < key(x) {
      InsertDescMembers(t[..|t| - 1], x, key);
      assert t == t[..|t| - 1] + [t[|t| - 1]];
    }
  }

  lemma {:induction false} DescendingSnoc<T>(t: seq<T>, x: T, key: T -> real)
    requires Descending(t, key) && forall y :: y in t ==> key(y) >= key(x)
    ensures Descending(t + [x], key)
  {
  }

  lemma {:induction false} InsertDescOrdered<T>(t: seq<T>, x: T, key: T -> real)
    requires Descending(t, key)
    ensures Descending(InsertDesc(t, x, key), key)
  {
    if t != [] {
      var rest, last := t[..|t| - 1], t[|t| - 1];
      if key(last) >= key(x) {
        DescendingSnoc(t, x, key);
      } else {
        InsertDescOrdered(rest, x, key);
        InsertDescMembers(rest, x, key);
        forall y | y in InsertDesc(rest, x, key)
          ensures key(y) >= key(last)
        {
          assert y in multiset(InsertDesc(rest, x, key));
        }
        DescendingSnoc(InsertDesc(rest, x, key), last, key);
      }
    }
  }

  /** Sorting puts the same elements in descending order. */
  lemma {:induction false} SortDescFacts<T>(s: seq<T>, key: T -> real)
    ensures Descending(SortDesc(s, key), key)
    ensures multiset(SortDesc(s, key)) == multiset(s)
    ensures |SortDesc(s, key)| == |s|
  {
    if s != [] {
      SortDescFacts(s[..|s| - 1], key);
      InsertDescOrdered(SortDesc(s[..|s| - 1], key), s[|s| - 1], key);
      InsertDescMembers(SortDesc(s[..|s| - 1], key), s[|s| - 1], key);
      assert s == s[..|s| - 1] + [s[|s| - 1]];
    }
    assert |multiset(SortDesc(s, key))| == |multiset(s)|;
  }

  lemma {:induction false} WithKeySnoc<T>(s: seq<T>, x: T, key: T -> real, k: real)
    ensures WithKey(s + [x], key, k) == WithKey(s, key, k) + (if key(x) == k then [x] else [])
  {
  }

  lemma {:induction false} WithKeyNone<T>(s: seq<T>, key: T -> real, k: real)
    requires forall i :: 0 <= i < |s| ==> key(s[i]) != k
    ensures WithKey(s, key, k) == []
  {
    if s != [] {
      WithKeyNone(s[..|s| - 1], key, k);
    }
  }

  lemma {:induction false} InsertDescStable<T>(t: seq<T>, x: T, key: T -> real, k: real)
    requires Descending(t, key)
    ensures WithKey(InsertDesc(t, x, key), key, k) == WithKey(t, key, k) + (if key(x) == k then [x] else [])
  {
    if t == [] {
      WithKeySnoc([], x, key, k);
      assert [] + [x] == [x];
    } else if key(t[|t| - 1]) >= key(x) {
      WithKeySnoc(t, x, key, k);
    } else {
      var rest, last := t[..|t| - 1], t[|t| - 1];
      InsertDescStable(rest, x, key, k);
      WithKeySnoc(InsertDesc(rest, x, key), last, key, k);
    }
  }

  /** Sorting leaves elements with equal keys in the order they were in. */
  lemma {:induction false} SortDescStable<T>(s: seq<T>, key: T -> real, k: real)
    ensures WithKey(SortDesc(s, key), key, k) == WithKey(s, key, k)
  {
    if s != [] {
      SortDescStable(s[..|s| - 1], key, k);
      SortDescFacts(s[..|s| - 1], key);
      InsertDescStable(SortDesc(s[..|s| - 1], key), s[|s| - 1], key, k);
    }
  }

  lemma {:induction false} WithKeyLast<T>(s: seq<T>, key: T -> real)
    requires s != []
    ensures var w := WithKey(s, key, key(s[|s| - 1]));
            w != [] && w[|w| - 1] == s[|s| - 1]
  {
  }

  lemma {:induction false} WithKeyMember<T>(s: seq<T>, key: T -> real, k: real, x: T)
    requires x in WithKey(s, key, k)
    ensures x in s && key(x) == k
  {
    if x in WithKey(s[..|s| - 1], key, k) {
      WithKeyMember(s[..|s| - 1], key, k, x);
    }
  }

  lemma {:induction false} LastKeyBelow<T>(s: seq<T>, t: seq<T>, key: T -> real)
    requires Descending(s, key) && t != [] && s != []
    requires WithKey(s, key, key(t[|t| - 1])) == WithKey(t, key, key(t[|t| - 1]))
    ensures key(s[|s| - 1]) <= key(t[|t| - 1])
  {
    var k := key(t[|t| - 1]);
    WithKeyLast(t, key);
    var w := WithKey(s, key, k);
    WithKeyMember(s, key, k, w[|w| - 1]);
  }

  /** Order and stability leave only one result. */
  lemma {:induction false} StableOrderIsUnique<T>(s: seq<T>, t: seq<T>, key: T -> real)
    requires Descending(s, key) && Descending(t, key)
    requires forall k :: WithKey(s, key, k) == WithKey(t, key, k)
    ensures s == t
  {
    if s == [] {
      if t != [] {
        WithKeyLast(t, key);
      }
    } else if t == [] {
      WithKeyLast(s, key);
    } else {
      LastKeyBelow(s, t, key);
      LastKeyBelow(t, s, key);
      WithKeyLast(s, key);
      WithKeyLast(t, key);
      var s', t' := s[..|s| - 1], t[..|t| - 1];
      forall k
        ensures WithKey(s', key, k) == WithKey(t', key, k)
      {
        assert WithKey(s, key, k) == WithKey(t, key, k);
        var tail := if key(s[|s| - 1]) == k then [s[|s| - 1]] else [];
        assert WithKey(s, key, k) == WithKey(s', key, k) + tail;
        assert WithKey(t, key, k) == WithKey(t', key, k) + tail;
        SameTail(WithKey(s', key, k), WithKey(t', key, k), tail);
      }
      StableOrderIsUnique(s', t', key);
      assert s == s' + [s[|s| - 1]] && t == t' + [t[|t| - 1]];
    }
  }

  lemma {:induction false} SameTail<T>(a: seq<T>, b: seq<T>, tail: seq<T>)
    requires a + tail == b + tail
    ensures a == b
  {
    assert |a| == |b|;
    assert (a + tail)[..|a|] == a && (b + tail)[..|b|] == b;
  }
}
