/** The PostgREST query building blocks the services chain: `.eq` filters, `.single()`, `.order`,
    `.range` and exact counts, over a table held as a sequence of rows in insertion order. */
module Query {
  import opened Wrappers

  /** The rows of `s` that satisfy `p`, in table order. */
  function Filter<T(!new)>(s: seq<T>, p: T -> bool): (r: seq<T>)
    ensures |r| <= |s|
    ensures forall x :: x in r <==> x in s && p(x)
  {
    if s == [] then []
    else
      assert s == [s[0]] + s[1..];
      if p(s[0]) then [s[0]] + Filter(s[1..], p) else Filter(s[1..], p)
  }

  /** Filtering a table with one more row at its end. */
  lemma {:induction false} FilterAppend<T(!new)>(s: seq<T>, x: T, p: T -> bool)
    ensures Filter(s + [x], p) == Filter(s, p) + (if p(x) then [x] else [])
  {
    if s == [] {
      assert [x][1..] == [];
    } else {
      assert (s + [x])[1..] == s[1..] + [x];
      FilterAppend(s[1..], x, p);
    }
  }

  lemma {:induction false} FilterNone<T(!new)>(s: seq<T>, p: T -> bool)
    requires forall x :: x in s ==> !p(x)
    ensures Filter(s, p) == []
  {
    if s != [] {
      assert s[0] in s;
      FilterNone(s[1..], p);
    }
  }

  /** `count: "exact"`: the number of rows that satisfy `p`. */
  function Count<T(!new)>(s: seq<T>, p: T -> bool): (n: nat)
    ensures n == |Filter(s, p)|
    ensures n == 0 <==> forall x :: x in s ==> !p(x)
  {
    if s == [] then 0
    else (if p(s[0]) then 1 else 0) + Count(s[1..], p)
  }

  /** `key(x) == k`, the row test of `.eq(column, k)`. */
  function KeyIs<T(!new), K(==)>(key: T -> K, k: K): T -> bool
  {
    x => key(x) == k
  }

  /** Some row of `s` has `k` in the column `key`. */
  predicate KeyUsed<T(==,!new), K(==)>(s: seq<T>, key: T -> K, k: K)
  {
    exists x :: x in s && key(x) == k
  }

  /** A unique (or primary-key) constraint on the column `key`. */
  ghost predicate Unique<T(!new), K>(s: seq<T>, key: T -> K)
  {
    forall i, j :: 0 <= i < j < |s| ==> key(s[i]) != key(s[j])
  }

  /** Under a unique constraint at most one row carries a given key. */
  lemma {:induction false} UniqueFilterAtMostOne<T(!new), K>(s: seq<T>, key: T -> K, k: K)
    requires Unique(s, key)
    ensures |Filter(s, KeyIs(key, k))| <= 1
  {
    if s != [] {
      assert Unique(s[1..], key) by {
        forall i, j | 0 <= i < j < |s[1..]| ensures key(s[1..][i]) != key(s[1..][j]) {
          assert s[1..][i] == s[i + 1] && s[1..][j] == s[j + 1];
        }
      }
      UniqueFilterAtMostOne(s[1..], key, k);
      if key(s[0]) == k {
        forall x | x in s[1..] ensures key(x) != k {
          var j :| 0 <= j < |s[1..]| && s[1..][j] == x;
          assert s[j + 1] == x;
        }
        FilterNone(s[1..], KeyIs(key, k));
      }
    }
  }

  lemma UniqueKeyMatchesOne<T(!new), K>(s: seq<T>, key: T -> K, k: K)
    ensures Unique(s, key) ==> (|Filter(s, KeyIs(key, k))| == 1 <==> KeyUsed(s, key, k))
  {
    if Unique(s, key) {
      UniqueFilterAtMostOne(s, key, k);
      if KeyUsed(s, key, k) {
        var x :| x in s && key(x) == k;
        assert x in Filter(s, KeyIs(key, k));
      }
    }
  }

  /** `.eq(column, k).single()`: the row when exactly one row matches, otherwise no row. */
  function Lookup<T(!new), K(==)>(s: seq<T>, key: T -> K, k: K): (r: Option<T>)
    ensures r.Some? ==> r.value in s && key(r.value) == k
    ensures Unique(s, key) ==> (r.Some? <==> KeyUsed(s, key, k))
  {
    var m := Filter(s, KeyIs(key, k));
    UniqueKeyMatchesOne(s, key, k);
    if |m| == 1 then
      assert m[0] in m;
      Some(m[0])
    else None
  }

  /** Under a unique constraint the lookup of a row's own key finds that row. */
  lemma LookupFinds<T(!new), K>(s: seq<T>, key: T -> K, x: T)
    requires Unique(s, key) && x in s
    ensures Lookup(s, key, key(x)) == Some(x)
  {
    var m := Filter(s, KeyIs(key, key(x)));
    UniqueFilterAtMostOne(s, key, key(x));
    assert x in m;
  }

  /** Appending a row whose key is unused keeps the constraint. */
  lemma UniqueAppend<T(!new), K>(s: seq<T>, key: T -> K, x: T)
    requires Unique(s, key) && !KeyUsed(s, key, key(x))
    ensures Unique(s + [x], key)
  {
    forall i, j | 0 <= i < j < |s + [x]| ensures key((s + [x])[i]) != key((s + [x])[j]) {
      if j == |s| {
        assert (s + [x])[i] in s;
      }
    }
  }

  /** An update that leaves the column `key` of every row as it was keeps the constraint. */
  lemma UniqueSameKeys<T(!new), K>(s: seq<T>, s': seq<T>, key: T -> K)
    requires Unique(s, key) && |s'| == |s|
    requires forall i :: 0 <= i < |s| ==> key(s'[i]) == key(s[i])
    ensures Unique(s', key)
    ensures forall k :: KeyUsed(s', key, k) <==> KeyUsed(s, key, k)
  {
    forall k ensures KeyUsed(s', key, k) <==> KeyUsed(s, key, k) {
      if KeyUsed(s', key, k) {
        var x :| x in s' && key(x) == k;
        var i :| 0 <= i < |s'| && s'[i] == x;
        assert s[i] in s;
      }
      if KeyUsed(s, key, k) {
        var x :| x in s && key(x) == k;
        var i :| 0 <= i < |s| && s[i] == x;
        assert s'[i] in s';
      }
    }
  }

  /** The column `key` (a `created_at`) strictly increases along the table. */
  ghost predicate Increasing<T(!new)>(s: seq<T>, key: T -> nat)
  {
    forall i, j :: 0 <= i < j < |s| ==> key(s[i]) < key(s[j])
  }

  /** A row stamped after every row of an increasing table keeps it increasing. */
  lemma IncreasingAppend<T(!new)>(s: seq<T>, key: T -> nat, x: T)
    requires Increasing(s, key) && forall y :: y in s ==> key(y) < key(x)
    ensures Increasing(s + [x], key)
  {
    forall i, j | 0 <= i < j < |s + [x]| ensures key((s + [x])[i]) < key((s + [x])[j]) {
      assert (s + [x])[i] == s[i];
      if j < |s| {
        assert (s + [x])[j] == s[j];
      } else {
        assert s[i] in s;
      }
    }
  }

  ghost predicate Decreasing<T(!new)>(s: seq<T>, key: T -> nat)
  {
    forall i, j :: 0 <= i < j < |s| ==> key(s[i]) > key(s[j])
  }

  /** Filtering keeps the order of the rows. */
  lemma {:induction false} FilterIncreasing<T(!new)>(s: seq<T>, p: T -> bool, key: T -> nat)
    ensures Increasing(s, key) ==> Increasing(Filter(s, p), key)
  {
    if s != [] && Increasing(s, key) {
      assert Increasing(s[1..], key) by {
        forall i, j | 0 <= i < j < |s[1..]| ensures key(s[1..][i]) < key(s[1..][j]) {
          assert s[1..][i] == s[i + 1] && s[1..][j] == s[j + 1];
        }
      }
      FilterIncreasing(s[1..], p, key);
      var rest := Filter(s[1..], p);
      if p(s[0]) {
        forall x | x in rest ensures key(s[0]) < key(x) {
          var j :| 0 <= j < |s[1..]| && s[1..][j] == x;
          assert s[j + 1] == x;
        }
        var r := [s[0]] + rest;
        forall i, j | 0 <= i < j < |r| ensures key(r[i]) < key(r[j]) {
          assert r[j] == rest[j - 1];
          if i > 0 {
            assert r[i] == rest[i - 1];
          } else {
            assert rest[j - 1] in rest;
          }
        }
      }
    }
  }

  /** `.order(created_at, ascending: false)` over a table kept in creation order. */
  function Reverse<T(!new)>(s: seq<T>): seq<T>
  {
    seq(|s|, i requires 0 <= i < |s| => s[|s| - 1 - i])
  }

  lemma ReverseProperties<T(!new)>(s: seq<T>, key: T -> nat)
    ensures |Reverse(s)| == |s|
    ensures forall x :: x in Reverse(s) <==> x in s
    ensures Increasing(s, key) ==> Decreasing(Reverse(s), key)
  {
    var r := Reverse(s);
    forall x ensures x in r <==> x in s {
      if x in s {
        var i :| 0 <= i < |s| && s[i] == x;
        assert r[|s| - 1 - i] == x;
      }
    }
  }

  lemma ReverseAppend<T(!new)>(s: seq<T>, x: T)
    ensures Reverse(s + [x]) == [x] + Reverse(s)
  {
  }

  /** The rows that satisfy `p`, newest first. */
  function NewestFirst<T(!new)>(s: seq<T>, p: T -> bool, key: T -> nat): (r: seq<T>)
    ensures forall x :: x in r <==> x in s && p(x)
    ensures Increasing(s, key) ==> Decreasing(r, key)
  {
    FilterIncreasing(s, p, key);
    ReverseProperties(Filter(s, p), key);
    Reverse(Filter(s, p))
  }

  /** A row appended to the table heads the newest-first listing when it qualifies. */
  lemma NewestFirstAppend<T(!new)>(s: seq<T>, x: T, p: T -> bool, key: T -> nat)
    ensures NewestFirst(s + [x], p, key) == (if p(x) then [x] else []) + NewestFirst(s, p, key)
  {
    FilterAppend(s, x, p);
    if p(x) {
      ReverseAppend(Filter(s, p), x);
    }
  }

  /** The rows that satisfy `p`, oldest first. */
  function OldestFirst<T(!new)>(s: seq<T>, p: T -> bool, key: T -> nat): (r: seq<T>)
    ensures forall x :: x in r <==> x in s && p(x)
    ensures Increasing(s, key) ==> Increasing(r, key)
  {
    FilterIncreasing(s, p, key);
    Filter(s, p)
  }

  function Min(a: nat, b: nat): nat
  {
    if a <= b then a else b
  }

  /** `.range(from, from + count - 1)`: at most `count` consecutive rows starting at position `from`. */
  function Range<T(!new)>(s: seq<T>, from: nat, count: nat): (r: seq<T>)
    ensures |r| == if from >= |s| then 0 else Min(count, |s| - from)
    ensures forall i :: 0 <= i < |r| ==> r[i] == s[from + i]
  {
    if from >= |s| then [] else s[from..from + Min(count, |s| - from)]
  }

  /** Consecutive pages read the listing without gap or overlap. */
  lemma RangeConcat<T(!new)>(s: seq<T>, from: nat, a: nat, b: nat)
    ensures Range(s, from, a) + Range(s, from + a, b) == Range(s, from, a + b)
  {
    var l, r, all := Range(s, from, a), Range(s, from + a, b), Range(s, from, a + b);
    assert |l + r| == |all|;
    forall i | 0 <= i < |all| ensures (l + r)[i] == all[i] {
      if i >= |l| {
        assert (l + r)[i] == r[i - |l|];
      }
    }
  }
}
