/** The source accumulates per-genre and per-decade dictionaries inside
    `forEach` loops (`if (!d[k]) d[k] = []; d[k].push(x)`, or a running count
    `d[k] = (d[k] || 0) + 1`) and then reads them with `Object.entries`, which
    lists keys in the order they were first inserted. Here such a dictionary
    is a list of groups in insertion order; a count is the size of a group and
    a total is the sum over its members. */
module Groups {
  import opened Common
  import opened Lists

  datatype Group<K, T> = Group(key: K, members: seq<T>)

  function KeyOf<K, T>(g: Group<K, T>): K { g.key }

  /** No key is listed twice, as in a dictionary. */
  predicate DistinctKeys<K(==), T>(gs: seq<Group<K, T>>)
  {
    DistinctIds(gs, KeyOf)
  }

  /** `d[k]`, with the empty list for a missing key. */
  function MembersOf<K(==), T>(gs: seq<Group<K, T>>, k: K): seq<T>
  {
    match FirstIndex(gs, KeyOf, k)
    case Some(i) => gs[i].members
    case None => []
  }

  /** `(d[k] = d[k] || []).push(x)` */
  function AddMember<K(==), T>(gs: seq<Group<K, T>>, k: K, x: T): seq<Group<K, T>>
  {
    match FirstIndex(gs, KeyOf, k)
    case Some(i) => gs[i := gs[i].(members := gs[i].members + [x])]
    case None => gs + [Group(k, [x])]
  }

  /** `keys.forEach(k => add(k, x))` */
  function AddUnderAll<K(==), T>(gs: seq<Group<K, T>>, ks: seq<K>, x: T): seq<Group<K, T>>
  {
    if ks == [] then gs
    else AddMember(AddUnderAll(gs, ks[..|ks| - 1], x), ks[|ks| - 1], x)
  }

  /** The dictionary built by `items.forEach(x => keys(x).forEach(k => add(k, x)))`. */
  function Grouped<K(==), T>(items: seq<T>, keys: T -> seq<K>): seq<Group<K, T>>
  {
    if items == [] then []
    else
      var last := items[|items| - 1];
      AddUnderAll(Grouped(items[..|items| - 1], keys), keys(last), last)
  }

  /** How often `k` occurs in `ks`. */
  function Count<K(==)>(ks: seq<K>, k: K): (n: nat)
    ensures n <= |ks|
    ensures n > 0 <==> k in ks
  {
    if ks == [] then 0
    else
      assert ks == ks[..|ks| - 1] + [ks[|ks| - 1]];
      Count(ks[..|ks| - 1], k) + (if ks[|ks| - 1] == k then 1 else 0)
  }

  function Repeat<T>(x: T, n: nat): (r: seq<T>)
    ensures |r| == n && forall i :: 0 <= i < n ==> r[i] == x
  {
    seq(n, _ => x)
  }

  /** Reference definition of one dictionary entry: every item that lists
      `k`, in order, once per listing. */
  function Collect<K(==), T>(items: seq<T>, keys: T -> seq<K>, k: K): seq<T>
  {
    if items == [] then []
    else
      var last := items[|items| - 1];
      Collect(items[..|items| - 1], keys, k) + Repeat(last, Count(keys(last), k))
  }

  /** Everything collected under `k` is an item that lists `k`. */
  lemma {:induction false} CollectListsKey<K, T>(items: seq<T>, keys: T -> seq<K>, k: K, y: T)
    requires y in Collect(items, keys, k)
    ensures y in items && k in keys(y)
  {
    var n := |items|;
    var front := items[..n - 1];
    if y in Collect(front, keys, k) {
      CollectListsKey(front, keys, k, y);
      assert front <= items;
    } else {
      assert y == items[n - 1];
    }
  }

  /** Where the key of group `i` of a dictionary leads. */
  lemma MembersAt<K, T>(gs: seq<Group<K, T>>, i: nat)
    requires DistinctKeys(gs) && i < |gs|
    ensures FirstIndex(gs, KeyOf, gs[i].key) == Some(i)
    ensures MembersOf(gs, gs[i].key) == gs[i].members
  {
    assert HasId(gs, KeyOf, gs[i].key) by { assert KeyOf(gs[i]) == gs[i].key; }
    var j := FirstIndex(gs, KeyOf, gs[i].key).value;
    assert KeyOf(gs[j]) == KeyOf(gs[i]);
    assert j == i;
  }

  /** Two dictionaries whose keys agree position by position find a key at the
      same position. */
  lemma {:induction false} FirstIndexSameKeys<K, T>(gs: seq<Group<K, T>>, hs: seq<Group<K, T>>, k: K)
    requires |gs| == |hs| && forall i :: 0 <= i < |gs| ==> gs[i].key == hs[i].key
    ensures FirstIndex(gs, KeyOf, k) == FirstIndex(hs, KeyOf, k)
  {
    if gs != [] {
      assert KeyOf(gs[0]) == KeyOf(hs[0]);
      FirstIndexSameKeys(gs[1..], hs[1..], k);
    }
  }

  /** One insertion adds `x` to the entry for `k` and to no other entry. */
  lemma AddMemberSpec<K, T>(gs: seq<Group<K, T>>, k: K, x: T, k': K)
    requires DistinctKeys(gs)
    ensures DistinctKeys(AddMember(gs, k, x))
    ensures MembersOf(AddMember(gs, k, x), k') ==
              if k' == k then MembersOf(gs, k') + [x] else MembersOf(gs, k')
  {
    var hs := AddMember(gs, k, x);
    match FirstIndex(gs, KeyOf, k)
    case Some(i) =>
      assert forall j :: 0 <= j < |gs| ==> hs[j].key == gs[j].key;
      FirstIndexSameKeys(gs, hs, k');
      assert DistinctKeys(hs) by {
        forall a, b | 0 <= a < b < |hs| ensures KeyOf(hs[a]) != KeyOf(hs[b]) {
          assert KeyOf(gs[a]) != KeyOf(gs[b]);
        }
      }
    case None =>
      assert forall j :: 0 <= j < |gs| ==> KeyOf(gs[j]) != k;
      assert DistinctKeys(hs) by {
        forall a, b | 0 <= a < b < |hs| ensures KeyOf(hs[a]) != KeyOf(hs[b]) {
          if b < |gs| { assert KeyOf(gs[a]) != KeyOf(gs[b]); }
        }
      }
      if k' == k {
        MembersAt(hs, |gs|);
      } else {
        assert gs == hs[..|gs|];
        FirstIndexPrefix(gs, hs, k');
      }
  }

  /** Appending a group under another key does not move where a key is found. */
  lemma {:induction false} FirstIndexPrefix<K, T>(gs: seq<Group<K, T>>, hs: seq<Group<K, T>>, k: K)
    requires |hs| == |gs| + 1 && gs == hs[..|gs|] && hs[|gs|].key != k
    ensures FirstIndex(hs, KeyOf, k) == FirstIndex(gs, KeyOf, k)
  {
    if gs != [] {
      assert gs[1..] == hs[1..][..|gs| - 1];
      FirstIndexPrefix(gs[1..], hs[1..], k);
    }
  }

  /** Adding `x` under every key of `ks` extends the entry for `k'` by one
      copy of `x` per occurrence of `k'` in `ks`. */
  lemma {:induction false} AddUnderAllSpec<K, T>(gs: seq<Group<K, T>>, ks: seq<K>, x: T, k': K)
    requires DistinctKeys(gs)
    ensures DistinctKeys(AddUnderAll(gs, ks, x))
    ensures MembersOf(AddUnderAll(gs, ks, x), k') == MembersOf(gs, k') + Repeat(x, Count(ks, k'))
  {
    if ks == [] {
      assert MembersOf(gs, k') + Repeat(x, 0) == MembersOf(gs, k');
    } else {
      var front, last := ks[..|ks| - 1], ks[|ks| - 1];
      var hs := AddUnderAll(gs, front, x);
      AddUnderAllSpec(gs, front, x, k');
      AddMemberStep(gs, hs, last, x, k', Count(front, k'));
      assert Count(ks, k') == Count(front, k') + (if last == k' then 1 else 0);
    }
  }

  /** The inductive step of `AddUnderAllSpec`, over a dictionary `hs` that
      already holds `c` copies of `x` under `k'`. */
  lemma AddMemberStep<K, T>(gs: seq<Group<K, T>>, hs: seq<Group<K, T>>, k: K, x: T, k': K, c: nat)
    requires DistinctKeys(hs) && MembersOf(hs, k') == MembersOf(gs, k') + Repeat(x, c)
    ensures DistinctKeys(AddMember(hs, k, x))
    ensures MembersOf(AddMember(hs, k, x), k') == MembersOf(gs, k') + Repeat(x, c + if k == k' then 1 else 0)
  {
    AddMemberSpec(hs, k, x, k');
    if k == k' {
      RepeatSnoc(MembersOf(gs, k'), x, c);
    }
  }

  /** One more copy of `x` at the end of a run of copies. */
  lemma RepeatSnoc<T>(m: seq<T>, x: T, c: nat)
    ensures m + Repeat(x, c) + [x] == m + Repeat(x, c + 1)
  {
    assert Repeat(x, c) + [x] == Repeat(x, c + 1);
  }

  /** No key has two entries. */
  lemma GroupedDistinct<K, T>(items: seq<T>, keys: T -> seq<K>)
    ensures DistinctKeys(Grouped(items, keys))
  {
    var gs := Grouped(items, keys);
    if gs != [] {
      GroupedSpec(items, keys, gs[0].key);
    }
  }

  /** The dictionary agrees with the reference definition on every key. */
  lemma {:induction false} GroupedSpec<K, T>(items: seq<T>, keys: T -> seq<K>, k: K)
    ensures DistinctKeys(Grouped(items, keys))
    ensures MembersOf(Grouped(items, keys), k) == Collect(items, keys, k)
  {
    if items != [] {
      var n := |items|;
      GroupedSpec(items[..n - 1], keys, k);
      AddUnderAllSpec(Grouped(items[..n - 1], keys), keys(items[n - 1]), items[n - 1], k);
    }
  }

  /** Every group of the dictionary holds exactly the items that list its key. */
  lemma GroupMembers<K, T>(items: seq<T>, keys: T -> seq<K>, i: nat)
    requires i < |Grouped(items, keys)|
    ensures Grouped(items, keys)[i].members == Collect(items, keys, Grouped(items, keys)[i].key)
  {
    var gs := Grouped(items, keys);
    GroupedSpec(items, keys, gs[i].key);
    MembersAt(gs, i);
  }

  /** Something is collected under `k` exactly when some item lists `k`. */
  lemma {:induction false} CollectNonEmpty<K, T>(items: seq<T>, keys: T -> seq<K>, k: K)
    ensures Collect(items, keys, k) != [] <==> exists i :: 0 <= i < |items| && k in keys(items[i])
  {
    if items != [] {
      var n := |items|;
      var front, last := items[..n - 1], items[n - 1];
      CollectNonEmpty(front, keys, k);
      assert Collect(items, keys, k) == Collect(front, keys, k) + Repeat(last, Count(keys(last), k));
      if exists i :: 0 <= i < n && k in keys(items[i]) {
        var i :| 0 <= i < n && k in keys(items[i]);
        if i < n - 1 {
          assert front[i] == items[i];
        }
      }
      if exists i :: 0 <= i < n - 1 && k in keys(front[i]) {
        var i :| 0 <= i < n - 1 && k in keys(front[i]);
        assert items[i] == front[i];
      }
    }
  }

  /** The dictionary has an entry for `k` exactly when some item lists `k`. */
  lemma GroupedKeys<K, T>(items: seq<T>, keys: T -> seq<K>, k: K)
    ensures HasId(Grouped(items, keys), KeyOf, k) <==> exists i :: 0 <= i < |items| && k in keys(items[i])
  {
    var gs := Grouped(items, keys);
    GroupedSpec(items, keys, k);
    CollectNonEmpty(items, keys, k);
    match FirstIndex(gs, KeyOf, k)
    case Some(i) => GroupNonEmpty(items, keys, i);
    case None =>
  }
  /** An entry per group, permuted, carries exactly the keys the items list. */
  lemma EntryKeys<K, T, B>(items: seq<T>, keys: T -> seq<K>, f: Group<K, T> -> B, idOf: B -> K, r: seq<B>)
    requires forall i :: 0 <= i < |Grouped(items, keys)| ==> idOf(f(Grouped(items, keys)[i])) == KeyOf(Grouped(items, keys)[i])
    requires multiset(r) == multiset(Map(Grouped(items, keys), f))
    ensures forall k :: HasId(r, idOf, k) <==> exists i :: 0 <= i < |items| && k in keys(items[i])
  {
    IdsKept(Grouped(items, keys), f, KeyOf, idOf, r);
    forall k ensures HasId(r, idOf, k) <==> exists i :: 0 <= i < |items| && k in keys(items[i]) {
      GroupedKeys(items, keys, k);
    }
  }


  /** Every group of a dictionary built by insertion holds at least one member. */
  lemma {:induction false} GroupNonEmpty<K, T>(items: seq<T>, keys: T -> seq<K>, i: nat)
    requires i < |Grouped(items, keys)|
    ensures Grouped(items, keys)[i].members != []
  {
    var n := |items|;
    var front := Grouped(items[..n - 1], keys);
    assert Grouped(items, keys) == AddUnderAll(front, keys(items[n - 1]), items[n - 1]);
    AddUnderAllNonEmpty(front, keys(items[n - 1]), items[n - 1], i);
    if i < |front| {
      GroupNonEmpty(items[..n - 1], keys, i);
    }
  }

  lemma {:induction false} AddUnderAllNonEmpty<K, T>(gs: seq<Group<K, T>>, ks: seq<K>, x: T, i: nat)
    requires i < |AddUnderAll(gs, ks, x)|
    ensures i < |gs| ==> |AddUnderAll(gs, ks, x)[i].members| >= |gs[i].members|
    ensures i >= |gs| ==> AddUnderAll(gs, ks, x)[i].members != []
  {
    if ks != [] {
      var front := AddUnderAll(gs, ks[..|ks| - 1], x);
      var k := ks[|ks| - 1];
      var res := AddMember(front, k, x);
      assert res == AddUnderAll(gs, ks, x);
      AddUnderAllGrows(gs, ks[..|ks| - 1], x);
      match FirstIndex(front, KeyOf, k)
      case Some(j) =>
        assert |res| == |front| && forall m :: 0 <= m < |front| ==> |res[m].members| >= |front[m].members|;
        AddUnderAllNonEmpty(gs, ks[..|ks| - 1], x, i);
      case None =>
        assert res == front + [Group(k, [x])];
        if i < |front| {
          assert res[i] == front[i];
          AddUnderAllNonEmpty(gs, ks[..|ks| - 1], x, i);
        }
    }
  }

  lemma {:induction false} AddUnderAllGrows<K, T>(gs: seq<Group<K, T>>, ks: seq<K>, x: T)
    ensures |AddUnderAll(gs, ks, x)| >= |gs|
  {
    if ks != [] {
      AddUnderAllGrows(gs, ks[..|ks| - 1], x);
    }
  }

  /** The loop the source runs: for every item, for every key it lists, add
      the item under that key. */
  method GroupBy<K(==), T>(items: seq<T>, keys: T -> seq<K>) returns (groups: seq<Group<K, T>>)
    ensures groups == Grouped(items, keys)
  {
    groups := [];
    for i := 0 to |items|
      invariant groups == Grouped(items[..i], keys)
    {
      var x := items[i];
      var ks := keys(x);
      ghost var before := groups;
      for j := 0 to |ks|
        invariant groups == AddUnderAll(before, ks[..j], x)
      {
        assert ks[..j + 1][..j] == ks[..j];
        match FirstIndex(groups, KeyOf, ks[j])
        case Some(g) =>
          groups := groups[g := groups[g].(members := groups[g].members + [x])];
        case None =>
          groups := groups + [Group(ks[j], [x])];
      }
      assert ks[..|ks|] == ks;
      assert items[..i + 1][..i] == items[..i];
    }
    assert items[..|items|] == items;
  }
}
