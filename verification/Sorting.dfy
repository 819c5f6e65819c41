/** Stable sorting of hashes by a two-part key, as ByLamportTimestamp and
    ByTopologicalOrder use it. */
module Sorting {
  import opened Dags

  type Keys = map<Hash, (int, int)>

  predicate Less(a: (int, int), b: (int, int)) {
    a.0 < b.0 || (a.0 == b.0 && a.1 < b.1)
  }

  ghost predicate Keyed(s: seq<Hash>, keys: Keys) {
    forall i :: 0 <= i < |s| ==> s[i] in keys
  }

  ghost predicate Sorted(s: seq<Hash>, keys: Keys)
    requires Keyed(s, keys)
  {
    forall i, j :: 0 <= i < j < |s| ==> !Less(keys[s[j]], keys[s[i]])
  }

  /** `x` goes in front of the first element that is not less than it. */
  function Inserted(x: Hash, s: seq<Hash>, keys: Keys): (r: seq<Hash>)
    requires x in keys && Keyed(s, keys)
    ensures multiset(r) == multiset(s) + multiset{x}
    ensures Keyed(r, keys)
  {
    if s == [] || !Less(keys[s[0]], keys[x]) then
      [x] + s
    else
      assert s == [s[0]] + s[1..];
      [s[0]] + Inserted(x, s[1..], keys)
  }

  function StableSort(s: seq<Hash>, keys: Keys): (r: seq<Hash>)
    requires Keyed(s, keys)
    ensures multiset(r) == multiset(s)
    ensures Keyed(r, keys)
  {
    if s == [] then []
    else
      assert s == [s[0]] + s[1..];
      Inserted(s[0], StableSort(s[1..], keys), keys)
  }

  lemma {:induction false} InsertedSorted(x: Hash, s: seq<Hash>, keys: Keys)
    requires x in keys && Keyed(s, keys) && Sorted(s, keys)
    ensures Sorted(Inserted(x, s, keys), keys)
  {
    if s != [] && Less(keys[s[0]], keys[x]) {
      var rest := Inserted(x, s[1..], keys);
      InsertedSorted(x, s[1..], keys);
      forall j | 0 <= j < |rest| ensures !Less(keys[rest[j]], keys[s[0]]) {
        assert rest[j] in multiset(rest);
        assert rest[j] == x || rest[j] in s[1..];
      }
    }
  }

  lemma {:induction false} StableSortSorted(s: seq<Hash>, keys: Keys)
    requires Keyed(s, keys)
    ensures Sorted(StableSort(s, keys), keys)
  {
    if s != [] {
      StableSortSorted(s[1..], keys);
      InsertedSorted(s[0], StableSort(s[1..], keys), keys);
    }
  }

  /** The elements of the list that have key `k`, in order. */
  function OfKey(s: seq<Hash>, keys: Keys, k: (int, int)): seq<Hash>
    requires Keyed(s, keys)
  {
    if s == [] then []
    else (if keys[s[0]] == k then [s[0]] else []) + OfKey(s[1..], keys, k)
  }

  lemma {:induction false} InsertedStable(x: Hash, s: seq<Hash>, keys: Keys, k: (int, int))
    requires x in keys && Keyed(s, keys)
    ensures OfKey(Inserted(x, s, keys), keys, k) == (if keys[x] == k then [x] else []) + OfKey(s, keys, k)
  {
    if s == [] || !Less(keys[s[0]], keys[x]) {
      OfKeyFirst(x, s, keys, k);
    } else {
      InsertedStable(x, s[1..], keys, k);
      OfKeyFirst(s[0], s[1..], keys, k);
      hide Less;
      OfKeyFirst(s[0], Inserted(x, s[1..], keys), keys, k);
      assert s == [s[0]] + s[1..];
    }
  }

  lemma {:induction false} OfKeyFirst(x: Hash, s: seq<Hash>, keys: Keys, k: (int, int))
    requires x in keys && Keyed(s, keys)
    ensures Keyed([x] + s, keys) && OfKey([x] + s, keys, k) == (if keys[x] == k then [x] else []) + OfKey(s, keys, k)
  {
    assert ([x] + s)[1..] == s;
  }

  /** Elements with equal keys keep their order. */
  lemma {:induction false} StableSortStable(s: seq<Hash>, keys: Keys, k: (int, int))
    requires Keyed(s, keys)
    ensures OfKey(StableSort(s, keys), keys, k) == OfKey(s, keys, k)
  {
    if s != [] {
      StableSortStable(s[1..], keys, k);
      InsertedStable(s[0], StableSort(s[1..], keys), keys, k);
    }
  }

  ghost predicate KeysDiffer(s: seq<Hash>, keys: Keys) {
    forall x, y :: x in s && y in s && x in keys && y in keys && keys[x] == keys[y] ==> x == y
  }

  lemma {:induction false} SameElements(s: seq<Hash>, t: seq<Hash>)
    requires multiset(s) == multiset(t)
    ensures |s| == |t|
    ensures forall x :: x in s <==> x in t
  {
    assert |multiset(s)| == |multiset(t)|;
    assert forall x :: x in s <==> x in multiset(s);
    assert forall x :: x in t <==> x in multiset(t);
  }

  lemma {:induction false} SameHead(s: seq<Hash>, t: seq<Hash>, keys: Keys)
    requires Keyed(s, keys) && Keyed(t, keys) && Sorted(s, keys) && Sorted(t, keys)
    requires multiset(s) == multiset(t) && KeysDiffer(s, keys) && s != []
    ensures t != [] && s[0] == t[0]
  {
    SameElements(s, t);
    assert s[0] in t && t[0] in s;
    var i :| 0 <= i < |t| && t[i] == s[0];
    var j :| 0 <= j < |s| && s[j] == t[0];
  }

  lemma {:induction false} SameTail(s: seq<Hash>, t: seq<Hash>)
    requires s != [] && t != [] && s[0] == t[0] && multiset(s) == multiset(t)
    ensures multiset(s[1..]) == multiset(t[1..])
  {
    assert s == [s[0]] + s[1..] && t == [t[0]] + t[1..];
    assert multiset(s[1..]) == multiset(s) - multiset{s[0]};
  }

  /** When no two keys coincide there is only one sorted order, whatever order
      the elements were enumerated in. */
  lemma {:induction false} SortedUnique(s: seq<Hash>, t: seq<Hash>, keys: Keys)
    requires Keyed(s, keys) && Keyed(t, keys) && Sorted(s, keys) && Sorted(t, keys)
    requires multiset(s) == multiset(t) && KeysDiffer(s, keys)
    ensures s == t
  {
    SameElements(s, t);
    if s != [] {
      SameHead(s, t, keys);
      SameTail(s, t);
      SortedUnique(s[1..], t[1..], keys);
      assert s == [s[0]] + s[1..] && t == [t[0]] + t[1..];
    }
  }

  // ---------------------------------------------------------------- lists of sets

  /** `list` enumerates `hs`. */
  ghost predicate Lists(list: seq<Hash>, hs: set<Hash>) {
    && (forall h :: h in list <==> h in hs)
    && forall i, j :: 0 <= i < j < |list| ==> list[i] != list[j]
  }

  lemma {:induction false} ListsNext(list: seq<Hash>, hs: set<Hash>, h: Hash)
    requires Lists(list, hs) && h !in hs
    ensures Lists(list + [h], hs + {h})
  {
  }

  lemma {:induction false} SortedLists(list: seq<Hash>, sorted: seq<Hash>, hs: set<Hash>)
    requires Lists(list, hs) && multiset(sorted) == multiset(list)
    ensures Lists(sorted, hs)
  {
    SameElements(list, sorted);
    forall i, j | 0 <= i < j < |sorted| ensures sorted[i] != sorted[j] {
      if sorted[i] == sorted[j] {
        var h := sorted[i];
        assert sorted == sorted[..j] + [sorted[j]] + sorted[j + 1..];
        assert h in sorted[..j];
        assert multiset(sorted)[h] >= 2;
        OnceEach(list, h);
      }
    }
  }

  lemma {:induction false} OnceEach(list: seq<Hash>, h: Hash)
    requires forall i, j :: 0 <= i < j < |list| ==> list[i] != list[j]
    ensures multiset(list)[h] <= 1
  {
    if list != [] {
      var n := |list| - 1;
      OnceEach(list[..n], h);
      assert list == list[..n] + [list[n]];
      assert list[n] !in list[..n];
    }
  }

  lemma {:induction false} ListsJoin(a: seq<Hash>, hs: set<Hash>, b: seq<Hash>, gs: set<Hash>)
    requires Lists(a, hs) && Lists(b, gs) && hs !! gs
    ensures Lists(a + b, hs + gs)
  {
    assert forall i :: 0 <= i < |a| ==> a[i] in a;
    assert forall i :: 0 <= i < |b| ==> b[i] in b;
  }

  /** Two lists of one set are permutations of each other. */
  lemma {:induction false} ListsPermute(a: seq<Hash>, b: seq<Hash>, hs: set<Hash>)
    requires Lists(a, hs) && Lists(b, hs)
    ensures multiset(a) == multiset(b)
  {
    forall h ensures multiset(a)[h] == multiset(b)[h] {
      OnceEach(a, h);
      OnceEach(b, h);
      assert h in multiset(a) <==> h in a;
      assert h in multiset(b) <==> h in b;
    }
  }
}
