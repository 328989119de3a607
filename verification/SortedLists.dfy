/** A list kept sorted by a text key, new elements behind the earlier ones with the same key. */
module SortedLists {
  import opened Lex

  ghost predicate Sorted<T(!new)>(s: seq<T>, key: T -> string)
  {
    forall i, j :: 0 <= i < j < |s| ==> Leq(key(s[i]), key(s[j]))
  }

  /** Adds an element behind every element whose key is not larger. */
  function Insert<T>(s: seq<T>, x: T, key: T -> string): seq<T>
  {
    if s == [] then [x]
    else if Leq(key(s[|s| - 1]), key(x)) then s + [x]
    else Insert(s[..|s| - 1], x, key) + [s[|s| - 1]]
  }

  /** The list after adding elements one by one. */
  function Added<T>(xs: seq<T>, key: T -> string): seq<T>
  {
    if xs == [] then [] else Insert(Added(xs[..|xs| - 1], key), xs[|xs| - 1], key)
  }

  /** The elements with one key, in order. */
  function WithKey<T>(s: seq<T>, key: T -> string, k: string): seq<T>
  {
    if s == [] then []
    else WithKey(s[..|s| - 1], key, k) + if key(s[|s| - 1]) == k then [s[|s| - 1]] else []
  }

  lemma {:induction false} WithKeyMember<T(!new)>(s: seq<T>, key: T -> string, k: string, x: T)
    ensures x in WithKey(s, key, k) <==> x in s && key(x) == k
  {
    if s != [] {
      WithKeyMember(s[..|s| - 1], key, k, x);
      assert s == s[..|s| - 1] + [s[|s| - 1]];
    }
  }

  lemma {:induction false} InsertKeeps<T(!new)>(s: seq<T>, x: T, key: T -> string)
    ensures multiset(Insert(s, x, key)) == multiset(s) + multiset{x}
  {
    if s != [] && !Leq(key(s[|s| - 1]), key(x)) {
      InsertKeeps(s[..|s| - 1], x, key);
      assert s == s[..|s| - 1] + [s[|s| - 1]];
    }
  }

  lemma InsertMember<T(!new)>(s: seq<T>, x: T, key: T -> string, y: T)
    requires y in Insert(s, x, key)
    ensures y == x || y in s
  {
    InsertKeeps(s, x, key);
    assert y in multiset(Insert(s, x, key));
    assert y in s <==> y in multiset(s);
  }

  lemma {:induction false} InsertSorted<T(!new)>(s: seq<T>, x: T, key: T -> string)
    requires Sorted(s, key)
    ensures Sorted(Insert(s, x, key), key)
  {
    if s != [] {
      var last := s[|s| - 1];
      Total(key(last), key(x));
      if Leq(key(last), key(x)) {
        forall i | 0 <= i < |s| ensures Leq(key(s[i]), key(x)) {
          if i < |s| - 1 {
            Transitive(key(s[i]), key(last), key(x));
          }
        }
      } else {
        var front := Insert(s[..|s| - 1], x, key);
        InsertSorted(s[..|s| - 1], x, key);
        forall i | 0 <= i < |front| ensures Leq(key(front[i]), key(last)) {
          InsertMember(s[..|s| - 1], x, key, front[i]);
        }
      }
    }
  }

  lemma {:induction false} InsertStable<T(!new)>(s: seq<T>, x: T, key: T -> string, k: string)
    requires Sorted(s, key)
    ensures WithKey(Insert(s, x, key), key, k) == WithKey(s, key, k) + if key(x) == k then [x] else []
  {
    if s == [] {
      assert [x][..0] == [];
    } else {
      var last := s[|s| - 1];
      if Leq(key(last), key(x)) {
        assert (s + [x])[..|s|] == s;
      } else {
        var front := s[..|s| - 1];
        InsertStable(front, x, key, k);
        assert Insert(s, x, key)[..|Insert(s, x, key)| - 1] == Insert(front, x, key);
        Total(key(last), key(x));
      }
    }
  }

  // ---- what any sequence of additions leaves

  lemma {:induction false} AddedIsSorted<T(!new)>(xs: seq<T>, key: T -> string)
    ensures multiset(Added(xs, key)) == multiset(xs)
    ensures Sorted(Added(xs, key), key)
  {
    if xs != [] {
      var front, x := xs[..|xs| - 1], xs[|xs| - 1];
      AddedIsSorted(front, key);
      assert xs == front + [x];
      InsertKeeps(Added(front, key), x, key);
      InsertSorted(Added(front, key), x, key);
    }
  }

  /** Elements with one key stay in the order they were added. */
  lemma {:induction false} AddedIsStable<T(!new)>(xs: seq<T>, key: T -> string, k: string)
    ensures WithKey(Added(xs, key), key, k) == WithKey(xs, key, k)
  {
    if xs != [] {
      var front, x := xs[..|xs| - 1], xs[|xs| - 1];
      AddedIsStable(front, key, k);
      AddedIsSorted(front, key);
      InsertStable(Added(front, key), x, key, k);
    }
  }

  ghost predicate SameByKey<T(!new)>(a: seq<T>, b: seq<T>, key: T -> string)
  {
    forall k :: WithKey(a, key, k) == WithKey(b, key, k)
  }

  /** Two sorted lists with the same elements in the same order under every key are one list. */
  lemma {:induction false} StableSortUnique<T(!new)>(a: seq<T>, b: seq<T>, key: T -> string)
    requires Sorted(a, key) && Sorted(b, key) && SameByKey(a, b, key)
    ensures a == b
    decreases |a| + |b|
  {
    if a == [] {
      NoneExtra(b, a, key);
    } else if b == [] {
      NoneExtra(a, b, key);
    } else {
      LastKeys(a, b, key);
      LastKeys(b, a, key);
      Total(key(a[|a| - 1]), key(b[|b| - 1]));
      SameLast(a, b, key);
      StableSortUnique(a[..|a| - 1], b[..|b| - 1], key);
      assert a == a[..|a| - 1] + [a[|a| - 1]] && b == b[..|b| - 1] + [b[|b| - 1]];
    }
  }

  lemma NoneExtra<T(!new)>(a: seq<T>, b: seq<T>, key: T -> string)
    requires SameByKey(a, b, key) && b == []
    ensures a == []
  {
    if a != [] {
      WithKeyMember(a, key, key(a[|a| - 1]), a[|a| - 1]);
    }
  }

  lemma SameLast<T(!new)>(a: seq<T>, b: seq<T>, key: T -> string)
    requires a != [] && b != [] && SameByKey(a, b, key)
    requires key(a[|a| - 1]) == key(b[|b| - 1])
    ensures a[|a| - 1] == b[|b| - 1]
    ensures SameByKey(a[..|a| - 1], b[..|b| - 1], key)
  {
    var fa, fb, x, y := a[..|a| - 1], b[..|b| - 1], a[|a| - 1], b[|b| - 1];
    var k := key(x);
    assert WithKey(a, key, k) == WithKey(fa, key, k) + [x];
    assert WithKey(b, key, k) == WithKey(fb, key, k) + [y];
    SnocEqual(WithKey(fa, key, k), x, WithKey(fb, key, k), y);
    forall j ensures WithKey(fa, key, j) == WithKey(fb, key, j) {
      assert WithKey(a, key, j) == WithKey(b, key, j);
      if j != k {
        assert WithKey(fa, key, j) + [] == WithKey(fa, key, j);
        assert WithKey(fb, key, j) + [] == WithKey(fb, key, j);
      }
    }
  }

  lemma SnocEqual<T>(s: seq<T>, x: T, t: seq<T>, y: T)
    requires s + [x] == t + [y]
    ensures s == t && x == y
  {
    assert (s + [x])[..|s|] == s && (t + [y])[..|t|] == t;
    assert (s + [x])[|s|] == x && (t + [y])[|t|] == y;
    assert |s + [x]| == |s| + 1 && |t + [y]| == |t| + 1;
  }

  lemma LastKeys<T(!new)>(a: seq<T>, b: seq<T>, key: T -> string)
    requires a != [] && b != [] && Sorted(b, key) && SameByKey(a, b, key)
    ensures Leq(key(a[|a| - 1]), key(b[|b| - 1]))
  {
    var x := a[|a| - 1];
    WithKeyMember(a, key, key(x), x);
    WithKeyMember(b, key, key(x), x);
    var i :| 0 <= i < |b| && b[i] == x;
    Total(key(x), key(x));
  }

  lemma LaterKey<T(!new)>(s: seq<T>, key: T -> string, i: nat, j: nat)
    requires Sorted(s, key) && i < |s| && j < |s| && !Leq(key(s[j]), key(s[i]))
    ensures i < j
  {
    Total(key(s[i]), key(s[i]));
  }
}
