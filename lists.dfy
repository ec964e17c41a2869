/**
 * Sequence operations behind the handlers' list shaping: Python's slice
 * `s[:n]`, a filtering loop, the order-preserving de-duplication done
 * with a `seen` set, and assignment into an insertion-ordered dictionary.
 */
module Lists {

  /** Python's `s[:n]`. */
  function Take<T>(s: seq<T>, n: nat): (r: seq<T>)
    ensures |r| == if |s| < n then |s| else n
    ensures r == s[..|r|]
  {
    if |s| <= n then s else s[..n]
  }

  predicate NoDup<T(==)>(s: seq<T>) {
    forall i, j :: 0 <= i < j < |s| ==> s[i] != s[j]
  }

  function Keys<T, K>(s: seq<T>, key: T -> K): (r: seq<K>)
    ensures |r| == |s| && forall i :: 0 <= i < |s| ==> r[i] == key(s[i])
  {
    if s == [] then [] else Keys(s[..|s| - 1], key) + [key(s[|s| - 1])]
  }

  function KeySet<T, K>(s: seq<T>, key: T -> K): set<K> {
    set i | 0 <= i < |s| :: key(s[i])
  }

  /**
   * The `seen`-set loop: walk `s` from the left and keep an element only when
   * no earlier element had the same key.
   */
  function DedupBy<T, K(==)>(s: seq<T>, key: T -> K): seq<T> {
    if s == [] then []
    else
      var d := DedupBy(s[..|s| - 1], key);
      if key(s[|s| - 1]) in KeySet(s[..|s| - 1], key) then d else d + [s[|s| - 1]]
  }

  /** `a` is `b` with some elements left out (greedy match from the end). */
  predicate Subsequence<T(==)>(a: seq<T>, b: seq<T>)
    decreases |b|
  {
    a == [] ||
    (b != [] &&
     if a[|a| - 1] == b[|b| - 1] then Subsequence(a[..|a| - 1], b[..|b| - 1])
     else Subsequence(a, b[..|b| - 1]))
  }

  lemma {:induction false} SubsequenceDropLast<T>(a: seq<T>, b: seq<T>)
    requires a != [] && Subsequence(a, b)
    ensures Subsequence(a[..|a| - 1], b)
    decreases |b|, 0
  {
    var a' := a[..|a| - 1];
    if a' != [] {
      if a[|a| - 1] == b[|b| - 1] {
        SubsequenceDropLast(a', b[..|b| - 1]);
        SubsequenceWiden(a'[..|a'| - 1], b[..|b| - 1], b[|b| - 1]);
        assert b[..|b| - 1] + [b[|b| - 1]] == b;
        if a'[|a'| - 1] != b[|b| - 1] {
          assert Subsequence(a', b[..|b| - 1]);
        }
      } else {
        SubsequenceDropLast(a, b[..|b| - 1]);
        SubsequenceWiden(a', b[..|b| - 1], b[|b| - 1]);
        assert b[..|b| - 1] + [b[|b| - 1]] == b;
      }
    }
  }

  /** A subsequence of `b` stays one when `b` grows at the end. */
  lemma {:induction false} SubsequenceWiden<T>(a: seq<T>, b: seq<T>, x: T)
    requires Subsequence(a, b)
    ensures Subsequence(a, b + [x])
    decreases |b|, 1
  {
    var b' := b + [x];
    assert b'[..|b'| - 1] == b;
    if a != [] && a[|a| - 1] == x {
      SubsequenceDropLast(a, b);
    }
  }

  /** The loop `for x in s: if p(x): out.append(x)`. */
  function Filter<T>(s: seq<T>, p: T -> bool): (r: seq<T>)
    ensures |r| <= |s|
    ensures forall i :: 0 <= i < |r| ==> p(r[i])
  {
    if s == [] then [] else
      var f := Filter(s[..|s| - 1], p);
      if p(s[|s| - 1]) then f + [s[|s| - 1]] else f
  }

  /** Filtering a list extended by at most one element. */
  lemma FilterSnoc<T>(a: seq<T>, b: seq<T>, p: T -> bool)
    requires |b| <= 1
    ensures Filter(a + b, p) == Filter(a, p) + Filter(b, p)
  {
    if b == [] {
      assert a + b == a;
    } else {
      assert (a + b)[..|a|] == a;
      assert b[..0] == [];
    }
  }

  /** An element is kept exactly when it is in the input and passes the test. */
  lemma {:induction false} FilterIff<T>(s: seq<T>, p: T -> bool, x: T)
    ensures x in Filter(s, p) <==> x in s && p(x)
  {
    if s != [] {
      var q := s[..|s| - 1];
      FilterIff(q, p, x);
      assert s == q + [s[|s| - 1]];
    }
  }

  /** Filtering a duplicate-free sequence keeps it duplicate-free. */
  lemma {:induction false} FilterNoDup<T>(s: seq<T>, p: T -> bool)
    requires NoDup(s)
    ensures NoDup(Filter(s, p))
  {
    if s != [] {
      var q, x := s[..|s| - 1], s[|s| - 1];
      assert NoDup(q);
      FilterNoDup(q, p);
      FilterIff(q, p, x);
      assert x !in q;
    }
  }

  /** The kept elements stay in their original order. */
  lemma {:induction false} FilterOrder<T>(s: seq<T>, p: T -> bool)
    ensures Subsequence(Filter(s, p), s)
  {
    if s != [] {
      var q, x := s[..|s| - 1], s[|s| - 1];
      FilterOrder(q, p);
      var f := Filter(q, p);
      SubsequenceWiden(f, q, x);
      assert q + [x] == s;
      assert (f + [x])[..|f|] == f;
    }
  }

  /** `if b: out.append(x)`. */
  function AddIf<T>(s: seq<T>, b: bool, x: T): seq<T> {
    if b then s + [x] else s
  }

  /** The element is added exactly when its test holds, and a fresh element keeps the list duplicate-free. */
  lemma AddIfSpec<T>(s: seq<T>, b: bool, x: T)
    ensures forall y :: y in AddIf(s, b, x) <==> y in s || (b && y == x)
    ensures NoDup(s) && x !in s ==> NoDup(AddIf(s, b, x))
    ensures |AddIf(s, b, x)| <= |s| + 1
  {
  }

  /** A key of a prefix is a key of the whole. */
  lemma KeysPrefix<T, K>(a: seq<T>, b: seq<T>, key: T -> K, x: K)
    requires a <= b && x in Keys(a, key)
    ensures x in Keys(b, key)
  {
    var i :| 0 <= i < |a| && Keys(a, key)[i] == x;
    assert Keys(b, key)[i] == x;
  }

  /** Index `i` holds the first element of `s` with its key. */
  predicate IsFirst<T, K(==)>(s: seq<T>, key: T -> K, i: int) {
    0 <= i < |s| && key(s[i]) !in KeySet(s[..i], key)
  }

  lemma KeySetSnoc<T, K>(s: seq<T>, x: T, key: T -> K)
    ensures KeySet(s + [x], key) == KeySet(s, key) + {key(x)}
  {
    var t := s + [x];
    assert forall i :: 0 <= i < |s| ==> t[i] == s[i];
    assert t[|s|] == x;
  }

  lemma DedupByKeysDistinct<T, K>(s: seq<T>, key: T -> K)
    ensures NoDup(Keys(DedupBy(s, key), key))
    ensures KeySet(DedupBy(s, key), key) == KeySet(s, key)
  {
    DedupByNoDup(s, key);
    DedupByKeySet(s, key);
  }

  lemma {:induction false} DedupByKeySet<T, K>(s: seq<T>, key: T -> K)
    ensures KeySet(DedupBy(s, key), key) == KeySet(s, key)
  {
    if s != [] {
      var p, x := s[..|s| - 1], s[|s| - 1];
      assert s == p + [x];
      DedupByKeySet(p, key);
      KeySetSnoc(p, x, key);
      if key(x) !in KeySet(p, key) {
        KeySetSnoc(DedupBy(p, key), x, key);
      }
    }
  }

  lemma {:induction false} DedupByNoDup<T, K>(s: seq<T>, key: T -> K)
    ensures NoDup(Keys(DedupBy(s, key), key))
  {
    if s != [] {
      var p, x := s[..|s| - 1], s[|s| - 1];
      DedupByNoDup(p, key);
      if key(x) !in KeySet(p, key) {
        var d := DedupBy(p, key);
        DedupByKeySet(p, key);
        var kd := Keys(d + [x], key);
        assert forall i :: 0 <= i < |d| ==> kd[i] == key(d[i]) && key(d[i]) in KeySet(d, key);
      }
    }
  }

  lemma {:induction false} DedupByOrder<T, K>(s: seq<T>, key: T -> K)
    ensures Subsequence(DedupBy(s, key), s)
  {
    if s != [] {
      var p, x := s[..|s| - 1], s[|s| - 1];
      DedupByOrder(p, key);
      var d := DedupBy(p, key);
      SubsequenceWiden(d, p, x);
      assert p + [x] == s;
      assert (d + [x])[..|d|] == d;
    }
  }

  lemma {:induction false} DedupByKeepsFirst<T, K>(s: seq<T>, key: T -> K)
    ensures forall i :: IsFirst(s, key, i) ==> s[i] in DedupBy(s, key)
  {
    if s != [] {
      var p, x := s[..|s| - 1], s[|s| - 1];
      DedupByKeepsFirst(p, key);
      forall i | IsFirst(s, key, i)
        ensures s[i] in DedupBy(s, key)
      {
        if i < |p| {
          assert s[..i] == p[..i];
          assert IsFirst(p, key, i);
        } else {
          assert s[..i] == p;
        }
      }
    }
  }

  /**
   * `x` sits at the position of the first occurrence of the `j`-th distinct key:
   * it is the element where that key is first seen, after `j` other keys.
   */
  ghost predicate FirstAt<T, K>(s: seq<T>, key: T -> K, x: T, j: int) {
    exists i :: IsFirst(s, key, i) && s[i] == x && |KeySet(s[..i], key)| == j
  }

  /**
   * One element per distinct key, and the `j`-th is the first occurrence of the
   * `j`-th key to appear: the first-occurrence order of the `seen`-set loop.
   */
  lemma {:induction false} DedupByPositions<T, K>(s: seq<T>, key: T -> K)
    ensures |DedupBy(s, key)| == |KeySet(s, key)|
    ensures forall j :: 0 <= j < |DedupBy(s, key)| ==> FirstAt(s, key, DedupBy(s, key)[j], j)
  {
    if s != [] {
      var p, x := s[..|s| - 1], s[|s| - 1];
      assert s == p + [x];
      DedupByPositions(p, key);
      KeySetSnoc(p, x, key);
      var d := DedupBy(p, key);
      forall j | 0 <= j < |d| ensures FirstAt(s, key, d[j], j) {
        var i :| IsFirst(p, key, i) && p[i] == d[j] && |KeySet(p[..i], key)| == j;
        assert s[..i] == p[..i];
        assert IsFirst(s, key, i) && s[i] == d[j];
      }
      if key(x) !in KeySet(p, key) {
        assert s[..|p|] == p;
        assert IsFirst(s, key, |p|) && s[|p|] == (d + [x])[|d|];
        assert FirstAt(s, key, (d + [x])[|d|], |d|);
      }
    }
  }

  /**
   * De-duplication leaves no repeated key, drops no key, keeps the elements in
   * their original order, and keeps the first element seen for every key, at
   * the rank of its key among the keys in order of first appearance.
   */
  lemma DedupBySpec<T, K>(s: seq<T>, key: T -> K)
    ensures NoDup(Keys(DedupBy(s, key), key))
    ensures KeySet(DedupBy(s, key), key) == KeySet(s, key)
    ensures Subsequence(DedupBy(s, key), s)
    ensures forall i :: IsFirst(s, key, i) ==> s[i] in DedupBy(s, key)
    ensures |DedupBy(s, key)| == |KeySet(s, key)|
    ensures forall j :: 0 <= j < |DedupBy(s, key)| ==> FirstAt(s, key, DedupBy(s, key)[j], j)
  {
    DedupByKeysDistinct(s, key);
    DedupByOrder(s, key);
    DedupByKeepsFirst(s, key);
    DedupByPositions(s, key);
  }

  /** A sequence whose keys are already distinct is left unchanged. */
  lemma {:induction false} DedupByDistinct<T, K>(s: seq<T>, key: T -> K)
    requires NoDup(Keys(s, key))
    ensures DedupBy(s, key) == s
  {
    if s != [] {
      var p, x := s[..|s| - 1], s[|s| - 1];
      var ks := Keys(s, key);
      assert forall i, j :: 0 <= i < j < |p| ==> Keys(p, key)[i] == ks[i] && Keys(p, key)[j] == ks[j];
      DedupByDistinct(p, key);
      assert forall i :: 0 <= i < |p| ==> key(p[i]) == ks[i] && ks[i] != ks[|s| - 1];
      assert key(x) !in KeySet(p, key);
      assert p + [x] == s;
    }
  }

  function Id<T>(x: T): T {
    x
  }

  /** `list(set(s))`, with the set's iteration order taken to be first occurrence. */
  function Distinct<T(==)>(s: seq<T>): seq<T> {
    DedupBy(s, Id)
  }

  /** Each element of `s` once, and nothing else. */
  lemma DistinctSpec<T>(s: seq<T>)
    ensures NoDup(Distinct(s))
    ensures forall e :: e in Distinct(s) <==> e in s
  {
    var d := Distinct(s);
    DedupByKeysDistinct(s, Id);
    var k := Keys(d, Id);
    assert forall i :: 0 <= i < |d| ==> k[i] == d[i];
    assert k == d;
    forall e ensures e in KeySet(d, Id) <==> e in d {
      if e in d {
        var i :| 0 <= i < |d| && d[i] == e;
        assert Id(d[i]) == e;
      }
    }
    forall e ensures e in KeySet(s, Id) <==> e in s {
      if e in s {
        var i :| 0 <= i < |s| && s[i] == e;
        assert Id(s[i]) == e;
      }
    }
  }

  /** The key of a dictionary entry. */
  function KeyOf<K, V>(e: (K, V)): K {
    e.0
  }

  /** The position of the entry for `k`, or `|d|` when there is none. */
  function Find<K(==), V>(d: seq<(K, V)>, k: K): (i: nat)
    ensures i <= |d|
    ensures i < |d| ==> d[i].0 == k
    ensures forall j :: 0 <= j < i ==> d[j].0 != k
  {
    if d == [] then 0
    else if d[0].0 == k then 0
    else 1 + Find(d[1..], k)
  }

  /** Dictionary assignment `d[k] = v`: an existing key keeps its place, a new one goes last. */
  function Put<K(==), V>(d: seq<(K, V)>, k: K, v: V): seq<(K, V)> {
    var i := Find(d, k);
    if i < |d| then d[i := (k, v)] else d + [(k, v)]
  }

  /**
   * After `d[k] = v` the dictionary maps `k` to `v`, gains key `k` and no
   * other, still has each key once, and keeps every other entry.
   */
  lemma PutSpec<K, V>(d: seq<(K, V)>, k: K, v: V)
    ensures (k, v) in Put(d, k, v)
    ensures forall x :: x in Keys(Put(d, k, v), KeyOf) <==> x in Keys(d, KeyOf) || x == k
    ensures NoDup(Keys(d, KeyOf)) ==> NoDup(Keys(Put(d, k, v), KeyOf))
    ensures NoDup(Keys(d, KeyOf)) ==> forall e :: e in Put(d, k, v) ==> e == (k, v) || (e in d && e.0 != k)
    ensures forall e :: e in d && e.0 != k ==> e in Put(d, k, v)
  {
    var i := Find(d, k);
    var r := Put(d, k, v);
    var kd := Keys(d, KeyOf);
    if i < |d| {
      assert Keys(r, KeyOf) == kd;
      forall e | e in d && e.0 != k ensures e in r {
        var j :| 0 <= j < |d| && d[j] == e;
        assert r[j] == e;
      }
      if NoDup(kd) {
        forall e | e in r ensures e == (k, v) || (e in d && e.0 != k) {
          var j :| 0 <= j < |r| && r[j] == e;
          if j != i {
            assert d[j] == e && kd[j] == e.0 && kd[i] == k;
          }
        }
      }
    } else {
      assert Keys(r, KeyOf) == kd + [k];
      assert k !in kd;
    }
  }
}
