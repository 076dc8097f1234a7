/**
 * The relational building blocks that the query code is made of: `WHERE` /
 * `Array.prototype.filter`, `Array.prototype.map`, `INNER JOIN ... ON a = b`,
 * `ORDER BY key DESC`, and counting rows by key.
 */
module Relational {

  /** The elements of `s` that satisfy `p`, in their original order. */
  function Filter<T(!new)>(p: T -> bool, s: seq<T>): (r: seq<T>)
    ensures |r| <= |s|
    ensures forall x :: x in r <==> x in s && p(x)
  {
    if s == [] then [] else (if p(s[0]) then [s[0]] else []) + Filter(p, s[1..])
  }

  /** Filtering distributes over concatenation: the order of the input is kept. */
  lemma {:induction false} FilterAppend<T(!new)>(p: T -> bool, a: seq<T>, b: seq<T>)
    ensures Filter(p, a + b) == Filter(p, a) + Filter(p, b)
  {
    if a == [] {
      assert a + b == b;
    } else {
      assert (a + b)[0] == a[0];
      assert (a + b)[1..] == a[1..] + b;
      FilterAppend(p, a[1..], b);
    }
  }

  /**
   * Two filters with complementary predicates split a sequence: together they
   * keep every element exactly once.
   */
  lemma {:induction false} FilterPartition<T(!new)>(p: T -> bool, q: T -> bool, s: seq<T>)
    requires forall x :: q(x) == !p(x)
    ensures |Filter(p, s)| + |Filter(q, s)| == |s|
    ensures multiset(Filter(p, s)) + multiset(Filter(q, s)) == multiset(s)
  {
    if s != [] {
      FilterPartition(p, q, s[1..]);
      assert s == [s[0]] + s[1..];
    }
  }

  /** A filter by a weaker predicate keeps at least as many elements. */
  lemma {:induction false} FilterWeakerKeepsMore<T(!new)>(p: T -> bool, q: T -> bool, s: seq<T>)
    requires forall x :: p(x) ==> q(x)
    ensures |Filter(p, s)| <= |Filter(q, s)|
  {
    if s != [] {
      FilterWeakerKeepsMore(p, q, s[1..]);
    }
  }

  /** Filtering twice is filtering once by the conjunction. */
  lemma {:induction false} FilterTwice<T(!new)>(p: T -> bool, q: T -> bool, pq: T -> bool, s: seq<T>)
    requires forall x :: pq(x) == (p(x) && q(x))
    ensures Filter(q, Filter(p, s)) == Filter(pq, s)
  {
    if s != [] {
      FilterTwice(p, q, pq, s[1..]);
      var head := if p(s[0]) then [s[0]] else [];
      FilterAppend(q, head, Filter(p, s[1..]));
    }
  }

  /** `f` applied to every element, in order. */
  function Map<T(!new), U>(f: T -> U, s: seq<T>): (r: seq<U>)
    ensures |r| == |s|
    ensures forall i :: 0 <= i < |s| ==> r[i] == f(s[i])
  {
    if s == [] then [] else [f(s[0])] + Map(f, s[1..])
  }

  /** Filtering after a map is mapping after the filter that reads the mapped value. */
  lemma {:induction false} FilterMap<T(!new), U(!new)>(p: U -> bool, q: T -> bool, f: T -> U, s: seq<T>)
    requires forall x :: q(x) == p(f(x))
    ensures Filter(p, Map(f, s)) == Map(f, Filter(q, s))
  {
    if s != [] {
      FilterMap(p, q, f, s[1..]);
      assert Map(f, s) == [f(s[0])] + Map(f, s[1..]);
      assert Map(f, s)[1..] == Map(f, s[1..]);
      var head := if q(s[0]) then [s[0]] else [];
      MapAppend(f, head, Filter(q, s[1..]));
    }
  }

  /** Mapping with `g` undoes mapping with `f` when `g` undoes `f` on every element. */
  lemma MapInverse<T(!new), U(!new)>(f: T -> U, g: U -> T, s: seq<T>)
    requires forall x :: g(f(x)) == x
    ensures Map(g, Map(f, s)) == s
  {
  }

  /** Mapping distributes over concatenation. */
  lemma {:induction false} MapAppend<T(!new), U>(f: T -> U, a: seq<T>, b: seq<T>)
    ensures Map(f, a + b) == Map(f, a) + Map(f, b)
  {
    if a == [] {
      assert a + b == b;
    } else {
      assert (a + b)[1..] == a[1..] + b;
      MapAppend(f, a[1..], b);
    }
  }

  /** The number of elements of `s` whose key is `k`. */
  function CountKey<T(!new), K(==)>(key: T -> K, s: seq<T>, k: K): (n: nat)
    ensures n <= |s|
    ensures n == 0 <==> forall x :: x in s ==> key(x) != k
  {
    if s == [] then 0 else (if key(s[0]) == k then 1 else 0) + CountKey(key, s[1..], k)
  }

  lemma {:induction false} CountKeyAppend<T(!new), K>(key: T -> K, a: seq<T>, b: seq<T>, k: K)
    ensures CountKey(key, a + b, k) == CountKey(key, a, k) + CountKey(key, b, k)
  {
    if a == [] {
      assert a + b == b;
    } else {
      assert (a + b)[1..] == a[1..] + b;
      CountKeyAppend(key, a[1..], b, k);
    }
  }

  /** A primary key: no two elements share a key. */
  ghost predicate UniqueKeys<T(!new), K(!new)>(key: T -> K, s: seq<T>) {
    forall k :: CountKey(key, s, k) <= 1
  }

  /** Filtering never adds an element with a given key. */
  lemma {:induction false} FilterCountKey<T(!new), K>(p: T -> bool, key: T -> K, s: seq<T>, k: K)
    ensures CountKey(key, Filter(p, s), k) <= CountKey(key, s, k)
  {
    if s != [] {
      FilterCountKey(p, key, s[1..], k);
      var head := if p(s[0]) then [s[0]] else [];
      CountKeyAppend(key, head, Filter(p, s[1..]), k);
    }
  }

  lemma FilterUniqueKeys<T(!new), K(!new)>(p: T -> bool, key: T -> K, s: seq<T>)
    requires UniqueKeys(key, s)
    ensures UniqueKeys(key, Filter(p, s))
  {
    forall k ensures CountKey(key, Filter(p, s), k) <= 1 {
      FilterCountKey(p, key, s, k);
    }
  }

  /** Under a primary key, two rows with the same key are the same row. */
  lemma KeyedRowsEqual<T(!new), K(!new)>(key: T -> K, s: seq<T>, x: T, y: T)
    requires UniqueKeys(key, s)
    requires x in s && y in s && key(x) == key(y)
    ensures x == y
  {
    var i :| 0 <= i < |s| && s[i] == x;
    var j :| 0 <= j < |s| && s[j] == y;
    if i < j {
      CountKeyTwoIndices(key, s, i, j);
      assert false;
    } else if j < i {
      CountKeyTwoIndices(key, s, j, i);
      assert false;
    }
  }

  /** Two positions with the same key count twice. */
  lemma CountKeyTwoIndices<T(!new), K>(key: T -> K, s: seq<T>, i: nat, j: nat)
    requires i < j < |s| && key(s[i]) == key(s[j])
    ensures CountKey(key, s, key(s[i])) >= 2
  {
    var k := key(s[i]);
    assert s == s[..i] + s[i..j] + s[j..];
    CountKeyAppend(key, s[..i] + s[i..j], s[j..], k);
    CountKeyAppend(key, s[..i], s[i..j], k);
    assert s[i..j][0] == s[i];
    assert s[j..][0] == s[j];
  }

  /** The rows of `rs` whose key equals `lk`, each projected together with `l`. */
  function JoinOne<L(!new), R(!new), K(==), O(!new)>(l: L, lk: K, rs: seq<R>, rkey: R -> K, proj: (L, R) -> O): (out: seq<O>)
    ensures |out| == CountKey(rkey, rs, lk)
    ensures forall o :: o in out <==> exists r :: r in rs && rkey(r) == lk && o == proj(l, r)
  {
    if rs == [] then []
    else
      var rest := JoinOne(l, lk, rs[1..], rkey, proj);
      assert forall r :: r in rs <==> r == rs[0] || r in rs[1..];
      (if rkey(rs[0]) == lk then [proj(l, rs[0])] else []) + rest
  }

  /**
   * `ls INNER JOIN rs ON lkey(l) = rkey(r)`, producing `proj(l, r)` for each
   * matching pair, grouped by left row in the order of `ls`. A left row with
   * no match produces nothing.
   */
  function InnerJoin<L(!new), R(!new), K(==), O(!new)>(ls: seq<L>, rs: seq<R>, lkey: L -> K, rkey: R -> K, proj: (L, R) -> O): (out: seq<O>)
    ensures forall o :: o in out <==>
      exists l, r :: l in ls && r in rs && lkey(l) == rkey(r) && o == proj(l, r)
  {
    if ls == [] then []
    else
      var rest := InnerJoin(ls[1..], rs, lkey, rkey, proj);
      assert forall l :: l in ls <==> l == ls[0] || l in ls[1..];
      JoinOne(ls[0], lkey(ls[0]), rs, rkey, proj) + rest
  }

  /**
   * When the right side's key is a primary key and the projection carries the
   * left row's identity, a join produces at most as many rows with a given
   * identity as the left side has: a key match never duplicates a left row.
   */
  lemma {:induction false} JoinCountKey<L(!new), R(!new), K(!new), I, O(!new)>(
    ls: seq<L>, rs: seq<R>, lkey: L -> K, rkey: R -> K, proj: (L, R) -> O,
    lid: L -> I, oid: O -> I, i: I)
    requires UniqueKeys(rkey, rs)
    requires forall l, r :: oid(proj(l, r)) == lid(l)
    ensures CountKey(oid, InnerJoin(ls, rs, lkey, rkey, proj), i) <= CountKey(lid, ls, i)
  {
    if ls != [] {
      var one := JoinOne(ls[0], lkey(ls[0]), rs, rkey, proj);
      JoinCountKey(ls[1..], rs, lkey, rkey, proj, lid, oid, i);
      CountKeyAppend(oid, one, InnerJoin(ls[1..], rs, lkey, rkey, proj), i);
      assert |one| <= 1;
      if |one| == 1 {
        assert one[0] in one;
      }
    }
  }

  /** Every left row with a match produces at least one row carrying its identity. */
  lemma {:induction false} JoinKeepsMatched<L(!new), R(!new), K, I, O(!new)>(
    ls: seq<L>, rs: seq<R>, lkey: L -> K, rkey: R -> K, proj: (L, R) -> O,
    lid: L -> I, oid: O -> I, l: L, r: R)
    requires forall l, r :: oid(proj(l, r)) == lid(l)
    requires l in ls && r in rs && lkey(l) == rkey(r)
    ensures CountKey(oid, InnerJoin(ls, rs, lkey, rkey, proj), lid(l)) >= 1
  {
    var out := InnerJoin(ls, rs, lkey, rkey, proj);
    assert proj(l, r) in out;
  }

  /** `s` is ordered by `key`, largest first. */
  ghost predicate SortedDesc<T(!new)>(key: T -> int, s: seq<T>) {
    forall i, j :: 0 <= i < j < |s| ==> key(s[i]) >= key(s[j])
  }

  /** Inserts `x` into a descending sequence before the first element with a smaller key. */
  function InsertDesc<T(!new)>(key: T -> int, x: T, s: seq<T>): (r: seq<T>)
    requires SortedDesc(key, s)
    ensures SortedDesc(key, r)
    ensures multiset(r) == multiset(s) + multiset{x}
  {
    if s == [] || key(x) >= key(s[0]) then [x] + s
    else
      var rest := InsertDesc(key, x, s[1..]);
      assert s == [s[0]] + s[1..];
      assert forall y :: y in rest ==> key(s[0]) >= key(y) by {
        forall y | y in rest ensures key(s[0]) >= key(y) {
          assert y in multiset(rest);
          if y != x {
            assert y in multiset(s[1..]);
            var j :| 0 <= j < |s[1..]| && s[1..][j] == y;
            assert s[j + 1] == y;
          }
        }
      }
      [s[0]] + rest
  }

  /** `ORDER BY key DESC`: the same elements, largest key first. */
  function SortDesc<T(!new)>(key: T -> int, s: seq<T>): (r: seq<T>)
    ensures SortedDesc(key, r)
    ensures multiset(r) == multiset(s)
    ensures |r| == |s|
  {
    if s == [] then []
    else
      assert s == [s[0]] + s[1..];
      InsertDesc(key, s[0], SortDesc(key, s[1..]))
  }

  lemma {:induction false} InsertDescCountKey<T(!new), I>(key: T -> int, x: T, s: seq<T>, id: T -> I, i: I)
    requires SortedDesc(key, s)
    ensures CountKey(id, InsertDesc(key, x, s), i) == CountKey(id, [x] + s, i)
  {
    if s != [] && key(x) < key(s[0]) {
      InsertDescCountKey(key, x, s[1..], id, i);
      assert ([x] + s)[1..] == s;
      assert ([x] + s[1..])[1..] == s[1..];
    }
  }

  /** Sorting neither adds nor removes an element with a given identity. */
  lemma {:induction false} SortDescCountKey<T(!new), I>(key: T -> int, s: seq<T>, id: T -> I, i: I)
    ensures CountKey(id, SortDesc(key, s), i) == CountKey(id, s, i)
  {
    if s != [] {
      SortDescCountKey(key, s[1..], id, i);
      InsertDescCountKey(key, s[0], SortDesc(key, s[1..]), id, i);
      assert ([s[0]] + SortDesc(key, s[1..]))[1..] == SortDesc(key, s[1..]);
    }
  }
}
