/** Operations on JavaScript arrays of records that the store, the social
    module and the session share: the stable descending sort that
    `arr.sort((a, b) => key(b) - key(a))` performs, `filter` by id, `find`
    and `some` by id. Records are told apart by an id function. */
module Lists {
  import opened Common

  /** Keys never increase from left to right. */
  predicate NonIncreasing<T>(s: seq<T>, key: T -> int)
  {
    forall i, j :: 0 <= i < j < |s| ==> key(s[i]) >= key(s[j])
  }

  /** Inserts `x` into a sorted list in front of the first element whose key
      is not greater than its own, so equal keys keep their relative order. */
  function Insert<T>(x: T, s: seq<T>, key: T -> int): (r: seq<T>)
    requires NonIncreasing(s, key)
    ensures NonIncreasing(r, key)
    ensures multiset(r) == multiset(s) + multiset{x}
    ensures |r| == |s| + 1
    ensures key(r[0]) == key(x) || (|s| > 0 && key(r[0]) == key(s[0]))
  {
    if s == [] || key(s[0]) <= key(x) then
      ConsSorted(x, s, key);
      [x] + s
    else
      var tail := s[1..];
      assert s == [s[0]] + tail;
      SortedTail(s[0], tail, key);
      var rest := Insert(x, tail, key);
      InsertStep(s[0], tail, x, rest, key);
      [s[0]] + rest
  }

  lemma SortedTail<T>(h: T, tail: seq<T>, key: T -> int)
    requires NonIncreasing([h] + tail, key)
    ensures NonIncreasing(tail, key)
  {
    var s := [h] + tail;
    forall i, j | 0 <= i < j < |tail| ensures key(tail[i]) >= key(tail[j]) {
      assert tail[i] == s[i + 1] && tail[j] == s[j + 1];
    }
  }

  /** The recursive case of `Insert`: `x` went into the tail. */
  lemma InsertStep<T>(h: T, tail: seq<T>, x: T, rest: seq<T>, key: T -> int)
    requires NonIncreasing([h] + tail, key) && key(h) > key(x)
    requires NonIncreasing(rest, key) && multiset(rest) == multiset(tail) + multiset{x} && |rest| == |tail| + 1
    requires key(rest[0]) == key(x) || (|tail| > 0 && key(rest[0]) == key(tail[0]))
    ensures NonIncreasing([h] + rest, key)
    ensures multiset([h] + rest) == multiset([h] + tail) + multiset{x}
  {
    if |tail| > 0 {
      var s := [h] + tail;
      assert s[0] == h && s[1] == tail[0];
      assert key(h) >= key(tail[0]);
    }
    ConsSorted(h, rest, key);
  }

  /** A sorted list stays sorted under a head whose key is at least the
      list's first key. */
  lemma ConsSorted<T>(h: T, s: seq<T>, key: T -> int)
    requires NonIncreasing(s, key) && (s != [] ==> key(h) >= key(s[0]))
    ensures NonIncreasing([h] + s, key)
  {
    var r := [h] + s;
    forall i, j | 0 <= i < j < |r| ensures key(r[i]) >= key(r[j]) {
      if i == 0 {
        assert r[j] == s[j - 1];
      } else {
        assert r[i] == s[i - 1] && r[j] == s[j - 1];
      }
    }
  }

  /** The stable descending sort by `key`: a permutation whose keys never
      increase. */
  function SortDesc<T>(s: seq<T>, key: T -> int): (r: seq<T>)
    ensures NonIncreasing(r, key)
    ensures multiset(r) == multiset(s)
    ensures |r| == |s|
  {
    if s == [] then []
    else
      assert s == [s[0]] + s[1..];
      Insert(s[0], SortDesc(s[1..], key), key)
  }

  /** The first element of a sorted list carries the largest key. */
  lemma SortedHeadIsMax<T>(s: seq<T>, key: T -> int, x: T)
    requires NonIncreasing(s, key) && x in s
    ensures key(s[0]) >= key(x) >= key(s[|s| - 1])
  {
    var i :| 0 <= i < |s| && s[i] == x;
    assert key(s[0]) >= key(s[i]) || i == 0;
    assert key(s[i]) >= key(s[|s| - 1]) || i == |s| - 1;
  }

  /** Applies `f` to every element, as `arr.map(f)`. */
  function Map<A, B>(s: seq<A>, f: A -> B): (r: seq<B>)
    ensures |r| == |s| && forall i :: 0 <= i < |s| ==> r[i] == f(s[i])
  {
    if s == [] then [] else [f(s[0])] + Map(s[1..], f)
  }

  /** Sorting commutes with a map that keeps every key: sorting the mapped
      list lines up with mapping the sorted list. */
  lemma {:induction false} MapInsert<A, B>(x: A, s: seq<A>, f: A -> B, ka: A -> int, kb: B -> int)
    requires forall a :: kb(f(a)) == ka(a)
    requires NonIncreasing(s, ka) && NonIncreasing(Map(s, f), kb)
    ensures Map(Insert(x, s, ka), f) == Insert(f(x), Map(s, f), kb)
  {
    var fs := Map(s, f);
    if s == [] || ka(s[0]) <= ka(x) {
      assert Map([x] + s, f) == [f(x)] + fs;
    } else {
      var tail := Map(s[1..], f);
      assert fs[0] == f(s[0]) && fs[1..] == tail;
      assert NonIncreasing(tail, kb);
      MapInsert(x, s[1..], f, ka, kb);
      assert Insert(f(x), fs, kb) == [f(s[0])] + Insert(f(x), tail, kb);
      assert Map([s[0]] + Insert(x, s[1..], ka), f) == [f(s[0])] + Map(Insert(x, s[1..], ka), f);
    }
  }

  lemma {:induction false} MapSortDesc<A, B>(s: seq<A>, f: A -> B, ka: A -> int, kb: B -> int)
    requires forall a :: kb(f(a)) == ka(a)
    ensures Map(SortDesc(s, ka), f) == SortDesc(Map(s, f), kb)
  {
    if s != [] {
      MapSortDesc(s[1..], f, ka, kb);
      assert Map(s, f) == [f(s[0])] + Map(s[1..], f);
      assert NonIncreasing(Map(SortDesc(s[1..], ka), f), kb);
      MapInsert(s[0], SortDesc(s[1..], ka), f, ka, kb);
    }
  }

  /** No two records share an id. */
  predicate DistinctIds<T, K(==)>(s: seq<T>, idOf: T -> K)
  {
    forall i, j :: 0 <= i < j < |s| ==> idOf(s[i]) != idOf(s[j])
  }

  /** `arr.some(x => x.id === id)` */
  predicate HasId<T, K(==)>(s: seq<T>, idOf: T -> K, id: K)
  {
    exists i :: 0 <= i < |s| && idOf(s[i]) == id
  }

  /** Mapping with a function that keeps every id, then permuting, keeps the
      set of ids. */
  lemma IdsKept<A, B, K>(s: seq<A>, f: A -> B, ida: A -> K, idb: B -> K, r: seq<B>)
    requires forall i :: 0 <= i < |s| ==> idb(f(s[i])) == ida(s[i])
    requires multiset(r) == multiset(Map(s, f))
    ensures forall k :: HasId(r, idb, k) <==> HasId(s, ida, k)
  {
    var m := Map(s, f);
    forall k ensures HasId(r, idb, k) <==> HasId(s, ida, k) {
      if HasId(r, idb, k) {
        var i :| 0 <= i < |r| && idb(r[i]) == k;
        assert r[i] in multiset(m);
        var j :| 0 <= j < |m| && m[j] == r[i];
        assert ida(s[j]) == k;
      }
      if HasId(s, ida, k) {
        var j :| 0 <= j < |s| && ida(s[j]) == k;
        assert m[j] in multiset(r);
        var i :| 0 <= i < |r| && r[i] == m[j];
        assert idb(r[i]) == k;
      }
    }
  }

  /** `arr.findIndex(x => x.id === id)`, with None for -1: the position of
      the first record carrying `id`. */
  function FirstIndex<T, K(==)>(s: seq<T>, idOf: T -> K, id: K): (r: Option<nat>)
    ensures r.Some? <==> HasId(s, idOf, id)
    ensures r.Some? ==> r.value < |s| && idOf(s[r.value]) == id
    ensures r.Some? ==> forall j :: 0 <= j < r.value ==> idOf(s[j]) != id
  {
    if s == [] then None
    else if idOf(s[0]) == id then Some(0)
    else
      match FirstIndex(s[1..], idOf, id)
      case None =>
        assert forall i :: 1 <= i < |s| ==> s[i] == s[1..][i - 1];
        None
      case Some(i) =>
        assert s[1..][i] == s[i + 1];
        Some(i + 1)
  }

  /** `arr.filter(x => x.id !== id)`: every record without that id, in order. */
  function Without<T, K(==)>(s: seq<T>, idOf: T -> K, id: K): (r: seq<T>)
    ensures !HasId(r, idOf, id)
    ensures forall i :: 0 <= i < |r| ==> r[i] in s && idOf(r[i]) != id
    ensures forall i :: 0 <= i < |s| && idOf(s[i]) != id ==> s[i] in r
    ensures |r| <= |s|
  {
    if s == [] then []
    else if idOf(s[0]) == id then Without(s[1..], idOf, id)
    else [s[0]] + Without(s[1..], idOf, id)
  }

  /** Filtering distributes over concatenation, so the records that stay
      keep their relative order. */
  lemma {:induction false} WithoutAppend<T, K>(s: seq<T>, t: seq<T>, idOf: T -> K, id: K)
    ensures Without(s + t, idOf, id) == Without(s, idOf, id) + Without(t, idOf, id)
  {
    if s == [] {
      assert s + t == t;
    } else {
      var head, tail := s[0], s[1..];
      var keep := if idOf(head) == id then [] else [head];
      assert s + t == [head] + (tail + t) && s == [head] + tail;
      WithoutAppend(tail, t, idOf, id);
      WithoutCons(head, tail + t, idOf, id);
      WithoutCons(head, tail, idOf, id);
      ConcatAssoc(keep, Without(tail, idOf, id), Without(t, idOf, id));
    }
  }

  lemma ConcatAssoc<T>(a: seq<T>, b: seq<T>, c: seq<T>)
    ensures a + (b + c) == (a + b) + c
  {
  }

  /** One step of the filter: the head stays exactly when it lacks the id. */
  lemma WithoutCons<T, K>(head: T, tail: seq<T>, idOf: T -> K, id: K)
    ensures Without([head] + tail, idOf, id) ==
              (if idOf(head) == id then [] else [head]) + Without(tail, idOf, id)
  {
    assert ([head] + tail)[0] == head && ([head] + tail)[1..] == tail;
  }

  /** Filtering out an id nobody carries changes nothing. */
  lemma {:induction false} WithoutAbsent<T, K>(s: seq<T>, idOf: T -> K, id: K)
    requires !HasId(s, idOf, id)
    ensures Without(s, idOf, id) == s
  {
    if s != [] {
      assert idOf(s[0]) != id;
      assert !HasId(s[1..], idOf, id) by {
        forall i | 0 <= i < |s| - 1 ensures idOf(s[1..][i]) != id {
          assert s[1..][i] == s[i + 1];
        }
      }
      WithoutAbsent(s[1..], idOf, id);
      assert s == [s[0]] + s[1..];
    }
  }

  /** Filtering keeps distinct ids distinct. */
  lemma {:induction false} WithoutDistinct<T, K>(s: seq<T>, idOf: T -> K, id: K)
    requires DistinctIds(s, idOf)
    ensures DistinctIds(Without(s, idOf, id), idOf)
  {
    if s != [] {
      assert DistinctIds(s[1..], idOf) by {
        forall i, j | 0 <= i < j < |s| - 1 ensures idOf(s[1..][i]) != idOf(s[1..][j]) {
          assert s[1..][i] == s[i + 1] && s[1..][j] == s[j + 1];
        }
      }
      WithoutDistinct(s[1..], idOf, id);
      var rest := Without(s[1..], idOf, id);
      if idOf(s[0]) != id {
        forall j | 0 <= j < |rest| ensures idOf(s[0]) != idOf(rest[j]) {
          assert rest[j] in s[1..];
          var k :| 0 <= k < |s| - 1 && s[1..][k] == rest[j];
          assert s[1..][k] == s[k + 1];
        }
      }
    }
  }

  /** Reordering a list without repeated ids, or keeping only some of its
      elements, cannot create one. */
  lemma {:induction false} DistinctSub<T, K>(r: seq<T>, s: seq<T>, idOf: T -> K)
    requires multiset(r) <= multiset(s) && DistinctIds(s, idOf)
    ensures DistinctIds(r, idOf)
  {
    if r != [] {
      var a := r[0];
      assert a in multiset(s);
      var k :| 0 <= k < |s| && s[k] == a;
      var rest := s[..k] + s[k + 1..];
      DropMatching(r, s, k);
      DistinctWithout(s, k, idOf);
      DistinctSub(r[1..], rest, idOf);
      forall j | 1 <= j < |r| ensures idOf(r[0]) != idOf(r[j]) {
        assert r[j] == r[1..][j - 1];
        assert r[j] in multiset(rest);
        var m :| 0 <= m < |rest| && rest[m] == r[j];
        var m' := if m < k then m else m + 1;
        assert rest[m] == s[m'] && m' != k;
      }
    }
  }

  /** Taking the first element off one list and its match off a list
      containing it leaves the rest of the first inside the rest of the
      second. */
  lemma DropMatching<T>(r: seq<T>, s: seq<T>, k: nat)
    requires multiset(r) <= multiset(s) && r != [] && k < |s| && s[k] == r[0]
    ensures multiset(r[1..]) <= multiset(s[..k] + s[k + 1..])
  {
    assert s == s[..k] + [s[k]] + s[k + 1..];
    assert r == [r[0]] + r[1..];
    assert multiset(r[1..]) == multiset(r) - multiset{r[0]};
    assert multiset(s[..k] + s[k + 1..]) == multiset(s) - multiset{s[k]};
  }

  /** Dropping one position keeps ids distinct. */
  lemma DistinctWithout<T, K>(s: seq<T>, k: nat, idOf: T -> K)
    requires k < |s| && DistinctIds(s, idOf)
    ensures DistinctIds(s[..k] + s[k + 1..], idOf)
  {
    var rest := s[..k] + s[k + 1..];
    forall i, j | 0 <= i < j < |rest| ensures idOf(rest[i]) != idOf(rest[j]) {
      var i' := if i < k then i else i + 1;
      var j' := if j < k then j else j + 1;
      assert rest[i] == s[i'] && rest[j] == s[j'];
    }
  }

  /** `if (!arr.some(y => y.id === x.id)) arr.push(x)`: appends `x` unless its
      id is already listed. Nothing already there moves, and the id is listed
      afterwards exactly once when it was listed at most once before. */
  function AddOnce<T, K(==)>(s: seq<T>, x: T, idOf: T -> K): (r: seq<T>)
    ensures HasId(r, idOf, idOf(x))
    ensures !HasId(s, idOf, idOf(x)) ==> r == s + [x]
    ensures HasId(s, idOf, idOf(x)) ==> r == s
    ensures s <= r && |r| <= |s| + 1
    ensures |r| == |s| + 1 <==> !HasId(s, idOf, idOf(x))
    ensures DistinctIds(s, idOf) ==> DistinctIds(r, idOf)
  {
    if HasId(s, idOf, idOf(x)) then s
    else
      assert (s + [x])[|s|] == x;
      s + [x]
  }

  /** After an add, an id is listed exactly when it was listed before or is
      the id of the added record. */
  lemma AddOnceMembership<T, K>(s: seq<T>, x: T, idOf: T -> K, id: K)
    ensures HasId(AddOnce(s, x, idOf), idOf, id) <==> HasId(s, idOf, id) || id == idOf(x)
  {
    var r := AddOnce(s, x, idOf);
    if HasId(r, idOf, id) && id != idOf(x) {
      var i :| 0 <= i < |r| && idOf(r[i]) == id;
      assert i < |s| && r[i] == s[i];
    }
    if HasId(s, idOf, id) {
      var i :| 0 <= i < |s| && idOf(s[i]) == id;
      assert r[i] == s[i];
    }
  }

  /** Adding the same record twice is the same as adding it once. */
  lemma AddOnceIdempotent<T, K>(s: seq<T>, x: T, idOf: T -> K)
    ensures AddOnce(AddOnce(s, x, idOf), x, idOf) == AddOnce(s, x, idOf)
  {
  }

  /** Removing what was just added (and was not there before) restores the
      list. */
  lemma WithoutAddOnce<T, K>(s: seq<T>, x: T, idOf: T -> K)
    requires !HasId(s, idOf, idOf(x))
    ensures Without(AddOnce(s, x, idOf), idOf, idOf(x)) == s
  {
    WithoutAppend(s, [x], idOf, idOf(x));
    WithoutAbsent(s, idOf, idOf(x));
  }

  /** `arr.filter(p).length` */
  function CountWhere<T>(s: seq<T>, p: T -> bool): (n: nat)
    ensures n <= |s|
    ensures n == 0 <==> forall i :: 0 <= i < |s| ==> !p(s[i])
  {
    if s == [] then 0
    else
      var rest := CountWhere(s[1..], p);
      assert forall i :: 1 <= i < |s| ==> s[i] == s[1..][i - 1];
      (if p(s[0]) then 1 else 0) + rest
  }

  /** Counting distributes over concatenation. */
  lemma {:induction false} CountWhereAppend<T>(s: seq<T>, t: seq<T>, p: T -> bool)
    ensures CountWhere(s + t, p) == CountWhere(s, p) + CountWhere(t, p)
  {
    if s == [] {
      assert s + t == t;
    } else {
      assert (s + t)[0] == s[0] && (s + t)[1..] == s[1..] + t;
      CountWhereAppend(s[1..], t, p);
    }
  }

  /** Two tests that agree on every element count the same. */
  lemma {:induction false} CountWhereSame<T>(s: seq<T>, p: T -> bool, q: T -> bool)
    requires forall i :: 0 <= i < |s| ==> p(s[i]) == q(s[i])
    ensures CountWhere(s, p) == CountWhere(s, q)
  {
    if s != [] {
      assert forall i :: 0 <= i < |s| - 1 ==> s[1..][i] == s[i + 1];
      CountWhereSame(s[1..], p, q);
    }
  }

  /** `arr.filter(p)`: the elements that pass, in order (`FilterCons` and
      `FilterAppend` state the order). */
  function Filter<T>(s: seq<T>, p: T -> bool): (r: seq<T>)
    ensures |r| == CountWhere(s, p)
    ensures forall i :: 0 <= i < |r| ==> p(r[i])
    ensures forall i :: 0 <= i < |s| && p(s[i]) ==> s[i] in r
    ensures multiset(r) <= multiset(s)
  {
    if s == [] then []
    else
      var rest := Filter(s[1..], p);
      var r := if p(s[0]) then [s[0]] + rest else rest;
      FilterStep(s, p, rest, r);
      r
  }

  /** What is drawn from a filtered sequence comes from the sequence and
      passes the filter. */
  lemma FilteredSub<T>(s: seq<T>, p: T -> bool, r: seq<T>)
    requires multiset(r) <= multiset(Filter(s, p))
    ensures multiset(r) <= multiset(s)
    ensures forall i :: 0 <= i < |r| ==> r[i] in s && p(r[i])
  {
    var f := Filter(s, p);
    forall i | 0 <= i < |r| ensures r[i] in s && p(r[i]) {
      assert r[i] in multiset(r);
      assert r[i] in multiset(f) && r[i] in multiset(s);
      var k :| 0 <= k < |f| && f[k] == r[i];
    }
  }

  lemma FilterStep<T>(s: seq<T>, p: T -> bool, rest: seq<T>, r: seq<T>)
    requires s != [] && r == (if p(s[0]) then [s[0]] + rest else rest)
    requires |rest| == CountWhere(s[1..], p) && forall i :: 0 <= i < |rest| ==> p(rest[i])
    requires forall i :: 0 <= i < |s[1..]| && p(s[1..][i]) ==> s[1..][i] in rest
    requires multiset(rest) <= multiset(s[1..])
    ensures |r| == CountWhere(s, p) && forall i :: 0 <= i < |r| ==> p(r[i])
    ensures forall i :: 0 <= i < |s| && p(s[i]) ==> s[i] in r
    ensures multiset(r) <= multiset(s)
  {
    FilterStepKept(s, p, rest, r);
    FilterStepComplete(s, p, rest, r);
    FilterStepMultiset(s, p, rest, r);
  }

  lemma FilterStepKept<T>(s: seq<T>, p: T -> bool, rest: seq<T>, r: seq<T>)
    requires s != [] && r == (if p(s[0]) then [s[0]] + rest else rest)
    requires |rest| == CountWhere(s[1..], p) && forall i :: 0 <= i < |rest| ==> p(rest[i])
    ensures |r| == CountWhere(s, p) && forall i :: 0 <= i < |r| ==> p(r[i])
  {
    if p(s[0]) {
      forall i | 0 <= i < |r| ensures p(r[i]) {
        if i > 0 { assert r[i] == rest[i - 1]; }
      }
    }
  }

  lemma FilterStepComplete<T>(s: seq<T>, p: T -> bool, rest: seq<T>, r: seq<T>)
    requires s != [] && r == (if p(s[0]) then [s[0]] + rest else rest)
    requires forall i :: 0 <= i < |s[1..]| && p(s[1..][i]) ==> s[1..][i] in rest
    ensures forall i :: 0 <= i < |s| && p(s[i]) ==> s[i] in r
  {
    forall i | 0 <= i < |s| && p(s[i]) ensures s[i] in r {
      if i > 0 {
        assert s[i] == s[1..][i - 1];
      }
    }
  }

  lemma FilterStepMultiset<T>(s: seq<T>, p: T -> bool, rest: seq<T>, r: seq<T>)
    requires s != [] && r == (if p(s[0]) then [s[0]] + rest else rest)
    requires multiset(rest) <= multiset(s[1..])
    ensures multiset(r) <= multiset(s)
  {
    assert s == [s[0]] + s[1..];
  }

  /** One step of `filter`: the head is kept exactly when it passes. */
  lemma FilterCons<T>(h: T, t: seq<T>, p: T -> bool)
    ensures Filter([h] + t, p) == (if p(h) then [h] else []) + Filter(t, p)
  {
    assert ([h] + t)[0] == h && ([h] + t)[1..] == t;
  }

  /** Filtering distributes over concatenation: the kept elements keep
      their relative order. */
  lemma {:induction false} FilterAppend<T>(s: seq<T>, t: seq<T>, p: T -> bool)
    ensures Filter(s + t, p) == Filter(s, p) + Filter(t, p)
  {
    if s == [] {
      assert s + t == t;
    } else {
      var h, rest := s[0], s[1..];
      assert s == [h] + rest && s + t == [h] + (rest + t);
      FilterAppend(rest, t, p);
      FilterCons(h, rest + t, p);
      FilterCons(h, rest, p);
      ConcatAssoc(if p(h) then [h] else [], Filter(rest, p), Filter(t, p));
    }
  }

  /** The test "has key `k`". */
  function KeyIs<T>(key: T -> int, k: int): T -> bool
  {
    x => key(x) == k
  }

  /** `SortDesc` is stable: for every key, the elements carrying it come out
      in the order they went in. */
  lemma {:induction false} SortDescStable<T>(s: seq<T>, key: T -> int, k: int)
    ensures Filter(SortDesc(s, key), KeyIs(key, k)) == Filter(s, KeyIs(key, k))
  {
    if s != [] {
      var h, t := s[0], s[1..];
      assert s == [h] + t;
      SortDescStable(t, key, k);
      InsertStable(h, SortDesc(t, key), key, k);
      FilterCons(h, t, KeyIs(key, k));
    }
  }

  /** Inserting puts `x` ahead of every element with its key. */
  lemma {:induction false} InsertStable<T>(x: T, s: seq<T>, key: T -> int, k: int)
    requires NonIncreasing(s, key)
    ensures Filter(Insert(x, s, key), KeyIs(key, k)) ==
              (if key(x) == k then [x] else []) + Filter(s, KeyIs(key, k))
  {
    var p := KeyIs(key, k);
    if s == [] || key(s[0]) <= key(x) {
      FilterCons(x, s, p);
    } else {
      var h, tail := s[0], s[1..];
      assert s == [h] + tail;
      SortedTail(h, tail, key);
      InsertStable(x, tail, key, k);
      assert Insert(x, s, key) == [h] + Insert(x, tail, key);
      InsertStableStep(h, x, tail, Insert(x, tail, key), p);
    }
  }

  lemma InsertStableStep<T>(h: T, x: T, tail: seq<T>, ins: seq<T>, p: T -> bool)
    requires !(p(h) && p(x))
    requires Filter(ins, p) == (if p(x) then [x] else []) + Filter(tail, p)
    ensures Filter([h] + ins, p) == (if p(x) then [x] else []) + Filter([h] + tail, p)
  {
    FilterCons(h, ins, p);
    FilterCons(h, tail, p);
    var a, b := (if p(h) then [h] else []), (if p(x) then [x] else []);
    assert a == [] || b == [];
    ConcatAssoc(a, b, Filter(tail, p));
    ConcatAssoc(b, a, Filter(tail, p));
  }

  /** The first `k` elements of `s` by descending key, as `sort` then
      `slice(0, k)` computes them: no element left out has a higher key than
      the last one kept. */
  function Top<T(!new)>(s: seq<T>, key: T -> int, k: nat): (r: seq<T>)
    ensures |r| == Min(k, |s|) && NonIncreasing(r, key) && multiset(r) <= multiset(s)
    ensures forall x :: x in multiset(s) - multiset(r) ==> |r| == k && (k > 0 ==> key(x) <= key(r[k - 1]))
  {
    TopOfSorted(s, key, k);
    Prefix(SortDesc(s, key), k)
  }

  /** The first `k` of a best-first sort are the `k` largest: an element
      left out means `k` were kept, none with a smaller key. */
  lemma TopOfSorted<T>(s: seq<T>, key: T -> int, k: nat)
    ensures var r := Prefix(SortDesc(s, key), k);
            |r| == Min(k, |s|) && NonIncreasing(r, key) && multiset(r) <= multiset(s) &&
            forall x :: x in multiset(s) - multiset(r) ==> |r| == k && (k > 0 ==> key(x) <= key(r[k - 1]))
  {
    var sorted := SortDesc(s, key);
    var r := Prefix(sorted, k);
    var rest := sorted[|r|..];
    assert sorted == r + rest;
    assert multiset(s) - multiset(r) == multiset(rest);
    SortedPrefix(sorted, r, key);
    SortedRest(sorted, r, rest, key, k);
  }

  lemma SortedPrefix<T>(sorted: seq<T>, r: seq<T>, key: T -> int)
    requires NonIncreasing(sorted, key) && r <= sorted
    ensures NonIncreasing(r, key)
  {
    forall i, j | 0 <= i < j < |r| ensures key(r[i]) >= key(r[j]) {
      assert r[i] == sorted[i] && r[j] == sorted[j];
    }
  }

  lemma SortedRest<T>(sorted: seq<T>, r: seq<T>, rest: seq<T>, key: T -> int, k: nat)
    requires NonIncreasing(sorted, key) && sorted == r + rest && |r| == Min(k, |sorted|)
    ensures forall x :: x in multiset(rest) ==> |r| == k && (k > 0 ==> key(x) <= key(r[k - 1]))
  {
    forall x | x in multiset(rest) ensures |r| == k && (k > 0 ==> key(x) <= key(r[k - 1])) {
      var j :| 0 <= j < |rest| && rest[j] == x;
      assert |r| < |sorted|;
      if k > 0 {
        assert sorted[|r| + j] == x && sorted[k - 1] == r[k - 1];
        assert key(sorted[k - 1]) >= key(sorted[|r| + j]);
      }
    }
  }
}
