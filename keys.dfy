/** Tuple keys `(region, n)` compared the way Python compares tuples of a
    `str` and an `int`, and the sorts the core applies to them: `sorted` over
    distinct keys and a stable sort of rows by key. */
module Keys {
  import Text

  type Key = (string, int)

  /** Python's `<` on `(str, int)` tuples. */
  predicate Less(a: Key, b: Key)
  {
    Text.LexLess(a.0, b.0) || (a.0 == b.0 && a.1 < b.1)
  }

  predicate LessEq(a: Key, b: Key)
  {
    a == b || Less(a, b)
  }

  lemma LessIrreflexive(a: Key)
    ensures !Less(a, a)
  {
    Text.LexLessIrreflexive(a.0);
  }

  lemma LessTransitive(a: Key, b: Key, c: Key)
    requires Less(a, b) && Less(b, c)
    ensures Less(a, c)
  {
    if Text.LexLess(a.0, b.0) && Text.LexLess(b.0, c.0) {
      Text.LexLessTransitive(a.0, b.0, c.0);
    }
  }

  /** Distinct keys are always ordered one way or the other. */
  lemma LessTotal(a: Key, b: Key)
    requires a != b
    ensures Less(a, b) || Less(b, a)
  {
    if a.0 != b.0 {
      Text.LexLessTotal(a.0, b.0);
    }
  }

  lemma Trichotomy(a: Key, b: Key)
    ensures a == b || Less(a, b) || Less(b, a)
  {
    if a != b { LessTotal(a, b); }
  }

  lemma LessAsymmetric(a: Key, b: Key)
    requires Less(a, b)
    ensures !Less(b, a)
  {
    if Less(b, a) {
      LessTransitive(a, b, a);
      LessIrreflexive(a);
    }
  }

  predicate StrictlySorted(s: seq<Key>)
  {
    forall i, j | 0 <= i < j < |s| :: Less(s[i], s[j])
  }

  /** Inserts `x` into a strictly ascending sequence, unless it is there. */
  function InsertKey(s: seq<Key>, x: Key): (r: seq<Key>)
    requires StrictlySorted(s)
    ensures StrictlySorted(r)
    ensures forall k :: k in r <==> k in s || k == x
  {
    if s == [] then [x]
    else if x == s[0] then s
    else if Less(x, s[0]) then
      var r := [x] + s;
      assert StrictlySorted(r) by {
        forall j | 1 <= j < |r| ensures Less(r[0], r[j]) {
          if j > 1 { LessTransitive(x, s[0], s[j - 1]); }
        }
      }
      r
    else
      LessTotal(x, s[0]);
      var rest := InsertKey(s[1..], x);
      assert forall k :: k in s ==> k == s[0] || k in s[1..];
      var r := [s[0]] + rest;
      assert StrictlySorted(r) by {
        forall j | 1 <= j < |r| ensures Less(r[0], r[j]) {
          assert r[j] in rest;
        }
      }
      r
  }

  /** `sorted(keys)`: the distinct keys of `s` in ascending order. */
  function SortKeys(s: seq<Key>): (r: seq<Key>)
    ensures StrictlySorted(r)
    ensures forall k :: k in r <==> k in s
    ensures |r| <= |s|
  {
    if s == [] then []
    else
      var rest := SortKeys(s[..|s| - 1]);
      assert forall k :: k in s <==> k in s[..|s| - 1] || k == s[|s| - 1] by {
        assert s == s[..|s| - 1] + [s[|s| - 1]];
      }
      var r := InsertKey(rest, s[|s| - 1]);
      assert |r| <= |rest| + 1 by { InsertKeyLength(rest, s[|s| - 1]); }
      r
  }

  lemma {:induction false} InsertKeyLength(s: seq<Key>, x: Key)
    requires StrictlySorted(s)
    ensures |InsertKey(s, x)| == if x in s then |s| else |s| + 1
  {
    if s != [] && x != s[0] && !Less(x, s[0]) {
      InsertKeyLength(s[1..], x);
      assert x in s <==> x in s[1..];
    } else if s != [] && x != s[0] {
      forall j | 0 <= j < |s| ensures s[j] != x {
        if j > 0 { LessTransitive(x, s[0], s[j]); }
        LessIrreflexive(x);
      }
    }
  }

  /** Rows in non-decreasing key order. */
  predicate SortedBy<T>(s: seq<T>, key: T -> Key)
  {
    forall i, j | 0 <= i < j < |s| :: LessEq(key(s[i]), key(s[j]))
  }

  /** The rows of `s` whose key is `k`, in their order in `s`. */
  function WithKey<T>(s: seq<T>, key: T -> Key, k: Key): seq<T>
  {
    if s == [] then []
    else WithKey(s[..|s| - 1], key, k) + (if key(s[|s| - 1]) == k then [s[|s| - 1]] else [])
  }

  lemma {:induction false} WithKeyAppend<T>(a: seq<T>, b: seq<T>, key: T -> Key, k: Key)
    ensures WithKey(a + b, key, k) == WithKey(a, key, k) + WithKey(b, key, k)
  {
    if b != [] {
      assert (a + b)[..|a + b| - 1] == a + b[..|b| - 1];
      WithKeyAppend(a, b[..|b| - 1], key, k);
    } else {
      assert a + b == a;
    }
  }

  lemma {:induction false} WithKeyNone<T>(s: seq<T>, key: T -> Key, k: Key)
    requires forall i | 0 <= i < |s| :: key(s[i]) != k
    ensures WithKey(s, key, k) == []
  {
    if s != [] {
      WithKeyNone(s[..|s| - 1], key, k);
    }
  }

  /** Inserts `x` after every row whose key is not greater, keeping the order
      of rows with equal keys: among the rows with any one key, `x` comes
      last and the others keep their order. */
  function InsertBy<T>(s: seq<T>, x: T, key: T -> Key): (r: seq<T>)
    requires SortedBy(s, key)
    ensures SortedBy(r, key)
    ensures multiset(r) == multiset(s) + multiset{x}
  {
    if s == [] then [x]
    else if Less(key(x), key(s[0])) then
      var r := [x] + s;
      assert SortedBy(r, key) by {
        forall j | 1 <= j < |r| ensures LessEq(key(r[0]), key(r[j])) {
          if j > 1 && key(s[0]) != key(s[j - 1]) { LessTransitive(key(x), key(s[0]), key(s[j - 1])); }
        }
      }
      r
    else
      Trichotomy(key(x), key(s[0]));
      var rest := InsertBy(s[1..], x, key);
      assert s == [s[0]] + s[1..];
      var r := [s[0]] + rest;
      assert SortedBy(r, key) by {
        forall j | 1 <= j < |r| ensures LessEq(key(r[0]), key(r[j])) {
          assert r[j] in multiset(rest);
          if r[j] != x {
            assert r[j] in multiset(s[1..]);
            var i :| 0 <= i < |s[1..]| && s[1..][i] == r[j];
            assert s[i + 1] == r[j];
          }
        }
      }
      r
  }

  lemma {:induction false} InsertByStable<T>(s: seq<T>, x: T, key: T -> Key, k: Key)
    requires SortedBy(s, key)
    ensures WithKey(InsertBy(s, x, key), key, k) == WithKey(s, key, k) + WithKey([x], key, k)
  {
    if s == [] {
      assert [x] == [] + [x];
    } else if Less(key(x), key(s[0])) {
      InsertFrontStable(s, x, key, k);
    } else {
      SortedByTail(s, key);
      InsertByStable(s[1..], x, key, k);
      InsertLaterStable(s, x, key, k);
    }
  }

  lemma SortedByTail<T>(s: seq<T>, key: T -> Key)
    requires s != [] && SortedBy(s, key)
    ensures SortedBy(s[1..], key)
  {
    forall i, j | 0 <= i < j < |s[1..]| ensures LessEq(key(s[1..][i]), key(s[1..][j])) {
      assert s[1..][i] == s[i + 1] && s[1..][j] == s[j + 1];
    }
  }

  /** A row put before all greater rows is the only one with its key. */
  lemma InsertFrontStable<T>(s: seq<T>, x: T, key: T -> Key, k: Key)
    requires s != [] && SortedBy(s, key) && Less(key(x), key(s[0]))
    ensures WithKey([x] + s, key, k) == WithKey(s, key, k) + WithKey([x], key, k)
  {
    WithKeyAppend([x], s, key, k);
    if key(x) == k {
      forall i | 0 <= i < |s| ensures key(s[i]) != k {
        if i > 0 && key(s[0]) != key(s[i]) { LessTransitive(key(x), key(s[0]), key(s[i])); }
        LessIrreflexive(key(x));
      }
      WithKeyNone(s, key, k);
    } else {
      assert WithKey([x], key, k) == [] + [];
    }
  }

  /** Insertion past the first row keeps the first row's place. */
  lemma InsertLaterStable<T>(s: seq<T>, x: T, key: T -> Key, k: Key)
    requires s != [] && SortedBy(s, key) && SortedBy(s[1..], key) && !Less(key(x), key(s[0]))
    requires WithKey(InsertBy(s[1..], x, key), key, k) == WithKey(s[1..], key, k) + WithKey([x], key, k)
    ensures WithKey(InsertBy(s, x, key), key, k) == WithKey(s, key, k) + WithKey([x], key, k)
  {
    assert InsertBy(s, x, key) == [s[0]] + InsertBy(s[1..], x, key);
    ConsWithKey(s, InsertBy(s[1..], x, key), WithKey([x], key, k), key, k);
  }

  /** Putting the first row of `s` before a sequence whose rows with key
      `k` are those of the rest of `s` followed by `w` gives the rows of
      `s` with key `k` followed by `w`. */
  lemma ConsWithKey<T>(s: seq<T>, t: seq<T>, w: seq<T>, key: T -> Key, k: Key)
    requires s != []
    requires WithKey(t, key, k) == WithKey(s[1..], key, k) + w
    ensures WithKey([s[0]] + t, key, k) == WithKey(s, key, k) + w
  {
    var h := WithKey([s[0]], key, k);
    var r := WithKey(s[1..], key, k);
    WithKeyAppend([s[0]], t, key, k);
    WithKeyAppend([s[0]], s[1..], key, k);
    assert s == [s[0]] + s[1..];
    assert h + (r + w) == (h + r) + w;
  }

  /** A stable sort of rows by key: ordered by key, a permutation of the
      input, and the rows with any one key in their input order. */
  function SortBy<T>(s: seq<T>, key: T -> Key): (r: seq<T>)
    ensures SortedBy(r, key)
    ensures multiset(r) == multiset(s)
  {
    if s == [] then []
    else
      assert s == s[..|s| - 1] + [s[|s| - 1]];
      InsertBy(SortBy(s[..|s| - 1], key), s[|s| - 1], key)
  }

  /** `SortBy` is stable: the rows with key `k` come out in their input
      order. */
  lemma {:induction false} SortByStable<T>(s: seq<T>, key: T -> Key, k: Key)
    ensures WithKey(SortBy(s, key), key, k) == WithKey(s, key, k)
  {
    if s != [] {
      var init := s[..|s| - 1];
      var x := s[|s| - 1];
      SortByStable(init, key, k);
      InsertByStable(SortBy(init, key), x, key, k);
      assert WithKey([x], key, k) == WithKey([], key, k) + (if key(x) == k then [x] else []);
    }
  }

  /** Two sequences with the same multiset have the same length and the
      same elements. */
  lemma SameElements<T>(a: seq<T>, b: seq<T>)
    requires multiset(a) == multiset(b)
    ensures |a| == |b|
    ensures forall i | 0 <= i < |a| :: a[i] in b
    ensures forall j | 0 <= j < |b| :: b[j] in a
  {
    assert |a| == |multiset(a)| == |multiset(b)| == |b|;
    forall i | 0 <= i < |a| ensures a[i] in b {
      assert a[i] in multiset(b);
    }
    forall j | 0 <= j < |b| ensures b[j] in a {
      assert b[j] in multiset(a);
    }
  }
}
