/** Strings in their usual order, lists sorted by a key of strings, and the fact
    that a strictly ascending list is determined by its members. */
module Order {

  predicate StrLess(a: string, b: string) {
    if b == "" then false
    else if a == "" then true
    else a[0] < b[0] || (a[0] == b[0] && StrLess(a[1..], b[1..]))
  }

  lemma {:induction false} StrTotal(a: string, b: string)
    ensures a == b || StrLess(a, b) || StrLess(b, a)
    ensures !(StrLess(a, b) && StrLess(b, a)) && !StrLess(a, a)
  {
    if a != "" {
      StrTotal(a[1..], a[1..]);
    }
    if a != "" && b != "" {
      StrTotal(a[1..], b[1..]);
      if a[0] == b[0] && a[1..] == b[1..] {
        assert a == [a[0]] + a[1..] && b == [b[0]] + b[1..];
      }
    }
  }

  lemma {:induction false} StrTransitive(a: string, b: string, c: string)
    requires StrLess(a, b) && StrLess(b, c)
    ensures StrLess(a, c)
  {
    if a != "" && a[0] == b[0] == c[0] {
      StrTransitive(a[1..], b[1..], c[1..]);
    }
  }

  /** A sort key: compared by its first string, then its second, and so on. */
  type Key = seq<string>

  predicate Less(a: Key, b: Key) {
    if b == [] then false
    else if a == [] then true
    else StrLess(a[0], b[0]) || (a[0] == b[0] && Less(a[1..], b[1..]))
  }

  lemma {:induction false} Total(a: Key, b: Key)
    ensures a == b || Less(a, b) || Less(b, a)
    ensures !(Less(a, b) && Less(b, a)) && !Less(a, a)
  {
    if a != [] {
      StrTotal(a[0], a[0]);
      Total(a[1..], a[1..]);
    }
    if a != [] && b != [] {
      StrTotal(a[0], b[0]);
      Total(a[1..], b[1..]);
      if a[0] == b[0] && a[1..] == b[1..] {
        assert a == [a[0]] + a[1..] && b == [b[0]] + b[1..];
      }
    }
  }

  lemma {:induction false} Transitive(a: Key, b: Key, c: Key)
    requires Less(a, b) && Less(b, c)
    ensures Less(a, c)
  {
    if a != [] {
      StrTotal(a[0], a[0]);
      if a[0] == b[0] == c[0] {
        Transitive(a[1..], b[1..], c[1..]);
      } else if StrLess(a[0], b[0]) && StrLess(b[0], c[0]) {
        StrTransitive(a[0], b[0], c[0]);
      }
    }
  }

  // ----- sorted lists ------------------------------------------------------

  datatype Keyed<T> = Keyed(key: Key, item: T)

  function Keys<T>(xs: seq<Keyed<T>>): (ks: seq<Key>)
    ensures |ks| == |xs| && forall i :: 0 <= i < |xs| ==> ks[i] == xs[i].key
  {
    seq(|xs|, i requires 0 <= i < |xs| => xs[i].key)
  }

  function Items<T>(xs: seq<Keyed<T>>): (ys: seq<T>)
    ensures |ys| == |xs| && forall i :: 0 <= i < |xs| ==> ys[i] == xs[i].item
  {
    seq(|xs|, i requires 0 <= i < |xs| => xs[i].item)
  }

  ghost predicate Ascends(ks: seq<Key>) {
    forall i, j :: 0 <= i < j < |ks| ==> Less(ks[i], ks[j])
  }

  ghost predicate Distinct(ks: seq<Key>) {
    forall i, j :: 0 <= i < j < |ks| ==> ks[i] != ks[j]
  }

  function Insert<T>(x: Keyed<T>, xs: seq<Keyed<T>>): seq<Keyed<T>> {
    if xs == [] || Less(x.key, xs[0].key) then [x] + xs else [xs[0]] + Insert(x, xs[1..])
  }

  /** sort.Slice, comparing by key. */
  function Sort<T>(xs: seq<Keyed<T>>): seq<Keyed<T>> {
    if xs == [] then [] else Insert(xs[0], Sort(xs[1..]))
  }

  lemma {:induction false} InsertKeeps<T>(x: Keyed<T>, xs: seq<Keyed<T>>)
    ensures multiset(Insert(x, xs)) == multiset(xs) + multiset{x}
  {
    if xs != [] && !Less(x.key, xs[0].key) {
      InsertKeeps(x, xs[1..]);
      assert xs == [xs[0]] + xs[1..];
    }
  }

  lemma {:induction false} SortKeeps<T>(xs: seq<Keyed<T>>)
    ensures multiset(Sort(xs)) == multiset(xs)
  {
    if xs != [] {
      SortKeeps(xs[1..]);
      InsertKeeps(xs[0], Sort(xs[1..]));
      assert xs == [xs[0]] + xs[1..];
    }
  }

  /** Sorting neither loses nor invents entries. */
  lemma SortMember<T>(xs: seq<Keyed<T>>, x: Keyed<T>)
    ensures x in Sort(xs) <==> x in xs
  {
    SortKeeps(xs);
    assert x in Sort(xs) <==> x in multiset(Sort(xs));
    assert x in xs <==> x in multiset(xs);
  }

  lemma {:induction false} InsertAscends<T>(x: Keyed<T>, xs: seq<Keyed<T>>)
    requires Ascends(Keys(xs)) && x.key !in Keys(xs)
    ensures Ascends(Keys(Insert(x, xs)))
  {
    if xs != [] {
      Total(x.key, xs[0].key);
      if Less(x.key, xs[0].key) {
        forall k | 0 < k < |xs|
          ensures Less(x.key, xs[k].key)
        {
          assert Less(Keys(xs)[0], Keys(xs)[k]);
          Transitive(x.key, xs[0].key, xs[k].key);
        }
      } else {
        assert xs[0].key == Keys(xs)[0];
        TailAscends(xs);
        InsertAscends(x, xs[1..]);
        var r := Insert(x, xs[1..]);
        forall k | 0 <= k < |r|
          ensures Less(xs[0].key, r[k].key)
        {
          assert r[k] in r;
          if r[k] != x {
            InsertMember(x, xs[1..], r[k]);
            var i :| 0 <= i < |xs[1..]| && xs[1..][i] == r[k];
            assert Less(Keys(xs)[0], Keys(xs)[i + 1]);
          }
        }
        assert forall i :: 0 < i < |Insert(x, xs)| ==> Keys(Insert(x, xs))[i] == Keys(r)[i - 1];
      }
    }
  }

  lemma TailAscends<T>(xs: seq<Keyed<T>>)
    requires xs != [] && Ascends(Keys(xs))
    ensures Ascends(Keys(xs[1..])) && Keys(xs[1..]) == Keys(xs)[1..]
  {
    assert Keys(xs[1..]) == Keys(xs)[1..];
  }

  lemma InsertMember<T>(x: Keyed<T>, xs: seq<Keyed<T>>, y: Keyed<T>)
    ensures y in Insert(x, xs) <==> y == x || y in xs
  {
    InsertKeeps(x, xs);
    assert y in Insert(x, xs) <==> y in multiset(Insert(x, xs));
    assert y in xs <==> y in multiset(xs);
  }

  /** Entries with distinct keys come out strictly ascending. */
  lemma {:induction false} SortAscends<T>(xs: seq<Keyed<T>>)
    requires Distinct(Keys(xs))
    ensures Ascends(Keys(Sort(xs)))
  {
    if xs != [] {
      assert Keys(xs[1..]) == Keys(xs)[1..];
      SortAscends(xs[1..]);
      var r := Sort(xs[1..]);
      forall i | 0 <= i < |r|
        ensures r[i].key != xs[0].key
      {
        SortMember(xs[1..], r[i]);
        var j :| 0 <= j < |xs[1..]| && xs[1..][j] == r[i];
        assert Keys(xs)[0] != Keys(xs)[j + 1];
      }
      InsertAscends(xs[0], r);
    }
  }

  lemma SomeMember(b: seq<Key>)
    ensures b != [] ==> exists k :: k in b
  {
    if b != [] {
      assert b[0] in b;
    }
  }

  /** Two strictly ascending lists with the same members are the same list. */
  lemma {:induction false} AscendsUnique(a: seq<Key>, b: seq<Key>)
    requires Ascends(a) && Ascends(b)
    requires forall k :: k in a <==> k in b
    ensures a == b
  {
    if a == [] {
      SomeMember(b);
    } else {
      assert a[0] in b;
      assert b[0] in a;
      Total(a[0], b[0]);
      forall k
        ensures k in a[1..] <==> k in b[1..]
      {
        Total(a[0], a[0]);
        assert k in a <==> k == a[0] || k in a[1..];
        assert k in b <==> k == b[0] || k in b[1..];
        assert a[0] !in a[1..] && b[0] !in b[1..];
      }
      AscendsUnique(a[1..], b[1..]);
      assert a == [a[0]] + a[1..] && b == [b[0]] + b[1..];
    }
  }

  // ----- listing a set in order --------------------------------------------

  /** The keys of a map, sorted. */
  method ListSet(keys: set<Key>) returns (list: seq<Key>)
    ensures Ascends(list) && forall k :: k in list <==> k in keys
  {
    var ks: seq<Keyed<()>> := [];
    var left := keys;
    while left != {}
      invariant left <= keys
      invariant forall k :: k in Keys(ks) <==> k in keys - left
      invariant Distinct(Keys(ks))
    {
      var k :| k in left;
      assert Keys(ks + [Keyed(k, ())]) == Keys(ks) + [k];
      AppendDistinct(Keys(ks), k);
      ks := ks + [Keyed(k, ())];
      left := left - {k};
    }
    list := Keys(Sort(ks));
    SortAscends(ks);
    SortKeepsKeys(ks);
  }

  lemma SortKeepsKeys<T>(xs: seq<Keyed<T>>)
    ensures forall k :: k in Keys(Sort(xs)) <==> k in Keys(xs)
  {
    forall k
      ensures k in Keys(Sort(xs)) <==> k in Keys(xs)
    {
      if k in Keys(xs) {
        var i :| 0 <= i < |xs| && Keys(xs)[i] == k;
        SortMember(xs, xs[i]);
        var j :| 0 <= j < |Sort(xs)| && Sort(xs)[j] == xs[i];
        assert Keys(Sort(xs))[j] == k;
      }
      if k in Keys(Sort(xs)) {
        var i :| 0 <= i < |Sort(xs)| && Keys(Sort(xs))[i] == k;
        SortMember(xs, Sort(xs)[i]);
        var j :| 0 <= j < |xs| && xs[j] == Sort(xs)[i];
        assert Keys(xs)[j] == k;
      }
    }
  }

  lemma AppendDistinct(ks: seq<Key>, k: Key)
    requires Distinct(ks) && k !in ks
    ensures Distinct(ks + [k])
  {
    assert forall i :: 0 <= i < |ks| ==> ks[i] in ks;
  }

  /** Names as one-string keys. */
  function Singles(ks: seq<string>): (r: seq<Key>)
    ensures |r| == |ks| && forall i :: 0 <= i < |ks| ==> r[i] == [ks[i]]
  {
    seq(|ks|, i requires 0 <= i < |ks| => [ks[i]])
  }

  lemma SinglesMember(ks: seq<string>, k: Key)
    ensures k in Singles(ks) <==> |k| == 1 && k[0] in ks
  {
    if |k| == 1 && k[0] in ks {
      var i :| 0 <= i < |ks| && ks[i] == k[0];
      assert Singles(ks)[i] == k;
    }
  }

  /** sort.Strings over the members of a set. */
  method ListNames(names: set<string>) returns (list: seq<string>)
    ensures Ascends(Singles(list)) && forall n :: n in list <==> n in names
  {
    var ks := ListSet(set n | n in names :: [n]);
    list := [];
    for i := 0 to |ks|
      invariant Singles(list) == ks[..i]
    {
      assert ks[i] in ks;
      assert Singles(list + [ks[i][0]]) == Singles(list) + [ks[i]];
      list := list + [ks[i][0]];
    }
    assert ks[..|ks|] == ks;
    forall n
      ensures n in list <==> n in names
    {
      SinglesMember(list, [n]);
      assert [n] in ks <==> n in names by { assert [n][0] == n; }
    }
  }
}
