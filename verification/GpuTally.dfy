/** Sums per resource key, the arithmetic under both status reports. */
module GpuTally {

  /** A Go map from key to count: a missing key reads as zero. */
  type Tally = map<string, int>

  function Amount(t: Tally, k: string): int {
    if k in t then t[k] else 0
  }

  /** `t[k] += n` */
  function Bump(t: Tally, k: string, n: int): Tally {
    t[k := Amount(t, k) + n]
  }

  function Plus(a: Tally, b: Tally): Tally {
    map k | k in a.Keys + b.Keys :: Amount(a, k) + Amount(b, k)
  }

  lemma PlusAmount(a: Tally, b: Tally, k: string)
    ensures Amount(Plus(a, b), k) == Amount(a, k) + Amount(b, k)
    ensures k in Plus(a, b) <==> k in a || k in b
  {
  }

  lemma PlusCommutes(a: Tally, b: Tally)
    ensures Plus(a, b) == Plus(b, a)
  {
    forall k | k in Plus(a, b)
      ensures Plus(a, b)[k] == Plus(b, a)[k]
    {
    }
  }

  lemma PlusAssociates(a: Tally, b: Tally, c: Tally)
    ensures Plus(Plus(a, b), c) == Plus(a, Plus(b, c))
  {
    var l, r := Plus(Plus(a, b), c), Plus(a, Plus(b, c));
    assert l.Keys == r.Keys;
    forall k | k in l
      ensures l[k] == r[k]
    {
      PlusAmount(a, b, k);
      PlusAmount(b, c, k);
    }
  }

  lemma PlusLaws(a: Tally, b: Tally, c: Tally)
    ensures Plus(a, b) == Plus(b, a)
    ensures Plus(Plus(a, b), c) == Plus(a, Plus(b, c))
    ensures Plus(a, map[]) == a == Plus(map[], a)
  {
    PlusCommutes(a, b);
    PlusAssociates(a, b, c);
    assert Plus(a, map[]).Keys == a.Keys;
    PlusCommutes(a, map[]);
  }

  lemma BumpIsPlus(t: Tally, k: string, n: int)
    ensures Bump(t, k, n) == Plus(t, map[k := n])
  {
  }

  function Sum(ts: seq<Tally>): Tally {
    if ts == [] then map[] else Plus(Sum(ts[..|ts| - 1]), ts[|ts| - 1])
  }

  lemma {:induction false} SumConcat(a: seq<Tally>, b: seq<Tally>)
    ensures Sum(a + b) == Plus(Sum(a), Sum(b))
  {
    if b == [] {
      assert a + b == a;
      PlusLaws(Sum(a), map[], map[]);
    } else {
      var c := b[..|b| - 1];
      assert (a + b)[..|a + b| - 1] == a + c;
      SumConcat(a, c);
      PlusLaws(Sum(a), Sum(c), b[|b| - 1]);
    }
  }

  /** Adding every entry of `d` into `t`, one key at a time in whatever order the
      map yields them, is adding the tallies. */
  method AddAll(t: Tally, d: Tally) returns (r: Tally)
    ensures r == Plus(t, d)
  {
    r := t;
    var left := d.Keys;
    while left != {}
      invariant left <= d.Keys
      invariant r.Keys == t.Keys + (d.Keys - left)
      invariant forall k :: k in r ==> r[k] == Amount(t, k) + if k in d.Keys - left then d[k] else 0
    {
      var k :| k in left;
      r := Bump(r, k, d[k]);
      left := left - {k};
    }
  }

  // ----- single observations -----------------------------------------------

  /** `n` of a key: used by a container of a pod, or (with no pod named) offered
      by a node. */
  datatype Reading = Reading(namespace_: string, pod: string, node: string, container: string, key: string, n: int)

  /** Which observations to add up. */
  datatype Pick =
    | All
    | OfPod(namespace_: string, pod: string)
    | OnNode(node: string)
    | OfContainer(namespace_: string, pod: string, container: string)

  predicate Picks(p: Pick, u: Reading) {
    match p
    case All => true
    case OfPod(ns, pod) => u.namespace_ == ns && u.pod == pod
    case OnNode(node) => u.node == node
    case OfContainer(ns, pod, c) => u.namespace_ == ns && u.pod == pod && u.container == c
  }

  function Of(us: seq<Reading>, p: Pick): Tally {
    if us == [] then map[]
    else
      var u, rest := us[|us| - 1], Of(us[..|us| - 1], p);
      if Picks(p, u) then Bump(rest, u.key, u.n) else rest
  }

  lemma {:induction false} OfConcat(a: seq<Reading>, b: seq<Reading>, p: Pick)
    ensures Of(a + b, p) == Plus(Of(a, p), Of(b, p))
  {
    if b == [] {
      assert a + b == a;
      PlusLaws(Of(a, p), map[], map[]);
    } else {
      var c, u := b[..|b| - 1], b[|b| - 1];
      assert (a + b)[..|a + b| - 1] == a + c;
      OfConcat(a, c, p);
      BumpIsPlus(Of(a + c, p), u.key, u.n);
      BumpIsPlus(Of(c, p), u.key, u.n);
      PlusLaws(Of(a, p), Of(c, p), map[u.key := u.n]);
    }
  }

  /** A tally does not depend on the order the observations come in. */
  lemma {:induction false} OfPermutes(a: seq<Reading>, b: seq<Reading>, p: Pick)
    requires multiset(a) == multiset(b)
    ensures Of(a, p) == Of(b, p)
    decreases |a|
  {
    assert |a| == |multiset(a)| && |b| == |multiset(b)|;
    if a != [] {
      var u, a' := a[|a| - 1], a[..|a| - 1];
      var j := FindLast(a, b);
      var l, r := b[..j], b[j + 1..];
      OfPermutes(a', l + r, p);
      assert a == a' + [u];
      OfConcat(a', [u], p);
      MoveLast(l, u, r, p);
    }
  }

  lemma FindLast<T>(a: seq<T>, b: seq<T>) returns (j: nat)
    requires multiset(a) == multiset(b) && a != []
    ensures j < |b| && b == b[..j] + ([a[|a| - 1]] + b[j + 1..])
    ensures multiset(a[..|a| - 1]) == multiset(b[..j] + b[j + 1..])
  {
    var u, a' := a[|a| - 1], a[..|a| - 1];
    assert a == a' + [u];
    assert u in multiset(a);
    assert u in b;
    j :| 0 <= j < |b| && b[j] == u;
    var l, r := b[..j], b[j + 1..];
    assert b == l + ([u] + r);
    CutMultiset(l, u, r);
    CutMultiset(a', u, []);
    assert a' + [] == a' && a == a' + ([u] + []);
    Cancel(multiset(a'), multiset(l + r), multiset{u});
  }

  lemma CutMultiset<T>(l: seq<T>, u: T, r: seq<T>)
    ensures multiset(l + ([u] + r)) == multiset(l + r) + multiset{u}
  {
    assert multiset(l + ([u] + r)) == multiset(l) + multiset([u] + r);
    assert multiset([u] + r) == multiset{u} + multiset(r);
    assert multiset(l + r) == multiset(l) + multiset(r);
  }

  lemma Cancel<T>(a: multiset<T>, b: multiset<T>, c: multiset<T>)
    requires a + c == b + c
    ensures a == b
  {
    assert a == (a + c) - c;
    assert b == (b + c) - c;
  }

  lemma MoveLast(l: seq<Reading>, u: Reading, r: seq<Reading>, p: Pick)
    ensures Of(l + ([u] + r), p) == Plus(Of(l + r, p), Of([u], p))
  {
    var x, y, z := Of(l, p), Of([u], p), Of(r, p);
    OfConcat(l, r, p);
    OfConcat(l, [u] + r, p);
    OfConcat([u], r, p);
    PlusCommutes(y, z);
    PlusAssociates(x, z, y);
  }

  predicate Mentions(us: seq<Reading>, p: Pick) {
    exists u | u in us :: Picks(p, u)
  }

  lemma {:induction false} OfNothing(us: seq<Reading>, p: Pick)
    ensures !Mentions(us, p) <==> Of(us, p) == map[]
  {
    if us != [] {
      var a, u := us[..|us| - 1], us[|us| - 1];
      OfNothing(a, p);
      assert us == a + [u];
      assert u in us;
    }
  }
}
