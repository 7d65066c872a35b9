/** Classifying resource keys by vendor and folding them into one row each. */
module GpuVendors {
  import opened Text
  import opened Order
  import opened GpuTally

  function UpperChar(c: char): char {
    if 'a' <= c <= 'z' then (c as int - 32) as char else c
  }

  /** HAMi's auxiliary keys are on the cluster. */
  predicate HamiManaged(all: set<string>) {
    "nvidia.com/gpualloc" in all || "nvidia.com/gpucores" in all || "nvidia.com/gpumem" in all
  }

  /** The vendor label of a key, and whether the key is a headline count. */
  function VendorOf(key: string, all: set<string>): (string, bool) {
    var k := Lower(key);
    if "nvidia.com/" <= k then
      if HamiManaged(all) then
        ("HAMi", k == "nvidia.com/gpualloc" || (k == "nvidia.com/gpu" && "nvidia.com/gpualloc" !in all))
      else ("NVIDIA", k == "nvidia.com/gpu")
    else if "amd.com/" <= k then ("AMD", k == "amd.com/gpu")
    else if "huawei.com/ascend" <= k || "huawei.com/npu" <= k then ("Huawei NPU", true)
    else if "hami.io/" <= k then ("HAMi", k == "hami.io/vgpu")
    else if "intel.com/" <= k then ("Intel", k == "intel.com/gpu")
    else if "aliyun.com/" <= k then ("Aliyun", HasSuffix(k, "/gpu"))
    else if "rocm.amd.com/" <= k then ("AMD ROCm", k == "rocm.amd.com/gpu")
    else (OtherVendor(key), true)
  }

  /** The part before the slash, capitalised; a key without one stands for itself. */
  function OtherVendor(key: string): string {
    var k := Lower(key);
    var i := IndexOf(k, "/");
    if i > 0 then [UpperChar(k[0])] + k[1..i] else key
  }

  /** No made-up label has a capital after its first letter. */
  lemma OtherIsLower(key: string)
    requires '/' in key && key[0] != '/'
    ensures forall p :: 1 <= p < |OtherVendor(key)| ==> !('A' <= OtherVendor(key)[p] <= 'Z')
  {
    var k := Lower(key);
    var i := IndexOf(k, "/");
    var s :| 0 <= s < |key| && key[s] == '/';
    assert Text.At(k, "/", s) by { assert k[s..s + 1] == "/"; }
    assert k[i..i + 1][0] == k[i];
    assert i > 0;
    forall p | 1 <= p < |OtherVendor(key)|
      ensures !('A' <= OtherVendor(key)[p] <= 'Z')
    {
      assert OtherVendor(key)[p] == k[p] == LowerChar(key[p]);
    }
  }

  /** The label "NVIDIA" means the nvidia.com family that HAMi does not manage. */
  lemma NvidiaIff(key: string, all: set<string>)
    requires '/' in key && key[0] != '/'
    ensures VendorOf(key, all).0 == "NVIDIA" <==> "nvidia.com/" <= Lower(key) && !HamiManaged(all)
  {
    OtherIsLower(key);
    assert |OtherVendor(key)| >= 2 ==> OtherVendor(key)[1] != 'V';
    LabelsDiffer();
  }

  lemma LabelsDiffer()
    ensures "HAMi" != "NVIDIA" && "AMD" != "NVIDIA" && "Huawei NPU" != "NVIDIA" && "Intel" != "NVIDIA"
    ensures "Aliyun" != "NVIDIA" && "AMD ROCm" != "NVIDIA" && |"NVIDIA"| == 6 && "NVIDIA"[1] == 'V'
  {
    assert "NVIDIA"[1] == 'V' && "Aliyun"[0] != "NVIDIA"[0];
    assert |"HAMi"| == 4 && |"AMD"| == 3 && |"Huawei NPU"| == 10 && |"Intel"| == 5 && |"AMD ROCm"| == 8;
  }

  // ----- one row per vendor ------------------------------------------------

  datatype Counts = Counts(total: int, used: int, available: int)

  datatype VendorSummary = VendorSummary(vendor: string, keys: seq<string>, counts: Counts, byKey: map<string, Counts>,
                                         primary: string)

  const ZERO := Counts(0, 0, 0)

  function CountsOf(k: string, alloc: Tally, used: Tally): Counts {
    var free := Amount(alloc, k) - Amount(used, k);
    Counts(Amount(alloc, k), Amount(used, k), if free < 0 then 0 else free)
  }

  function LowerSet(keys: seq<string>): set<string> {
    set k | k in keys :: Lower(k)
  }

  /** The keys of one vendor, in order. */
  function KeysOf(v: string, keys: seq<string>, all: set<string>): seq<string> {
    if keys == [] then []
    else
      var front, k := keys[..|keys| - 1], keys[|keys| - 1];
      KeysOf(v, front, all) + if VendorOf(k, all).0 == v then [k] else []
  }

  /** The vendor's first headline key, or "" when it has none. */
  function FirstPrimary(v: string, keys: seq<string>, all: set<string>): string {
    if keys == [] then ""
    else
      var front, k := keys[..|keys| - 1], keys[|keys| - 1];
      if FirstPrimary(v, front, all) != "" then FirstPrimary(v, front, all)
      else if VendorOf(k, all) == (v, true) then k
      else ""
  }

  function ByKey(ks: seq<string>, alloc: Tally, used: Tally): map<string, Counts> {
    map k | k in ks :: CountsOf(k, alloc, used)
  }

  /** A row as it stands once the given keys have been folded in. */
  function Bucket(v: string, keys: seq<string>, all: set<string>, alloc: Tally, used: Tally): VendorSummary {
    var p := FirstPrimary(v, keys, all);
    var ks := KeysOf(v, keys, all);
    VendorSummary(v, ks, if p == "" then ZERO else CountsOf(p, alloc, used), ByKey(ks, alloc, used), p)
  }

  /** The finished row: without a headline key it falls back to its first key. */
  function Closed(row: VendorSummary): VendorSummary {
    if row.primary == "" && row.keys != [] && row.keys[0] in row.byKey then
      row.(primary := row.keys[0], counts := row.byKey[row.keys[0]])
    else row
  }

  function RowOf(v: string, keys: seq<string>, alloc: Tally, used: Tally): VendorSummary {
    Closed(Bucket(v, keys, LowerSet(keys), alloc, used))
  }

  function VendorKeys(rows: seq<VendorSummary>): (ks: seq<Key>)
    ensures |ks| == |rows| && forall i :: 0 <= i < |rows| ==> ks[i] == [rows[i].vendor]
  {
    seq(|rows|, i requires 0 <= i < |rows| => [rows[i].vendor])
  }

  predicate HasVendor(v: string, keys: seq<string>, all: set<string>) {
    exists k | k in keys :: VendorOf(k, all).0 == v
  }

  /** One row for every vendor that has a key, in ascending order, each folding
      exactly that vendor's keys. */
  ghost predicate Grouping(rows: seq<VendorSummary>, keys: seq<string>, alloc: Tally, used: Tally) {
    && Ascends(VendorKeys(rows))
    && (forall i :: 0 <= i < |rows| ==> rows[i] == RowOf(rows[i].vendor, keys, alloc, used))
    && (forall v :: [v] in VendorKeys(rows) <==> HasVendor(v, keys, LowerSet(keys)))
  }

  /** Nothing is left open: the inputs determine the rows. */
  lemma GroupingUnique(a: seq<VendorSummary>, b: seq<VendorSummary>, keys: seq<string>, alloc: Tally, used: Tally)
    requires Grouping(a, keys, alloc, used) && Grouping(b, keys, alloc, used)
    ensures a == b
  {
    forall k
      ensures k in VendorKeys(a) <==> k in VendorKeys(b)
    {
      if k in VendorKeys(a) {
        var i :| 0 <= i < |a| && VendorKeys(a)[i] == k;
        assert [a[i].vendor] in VendorKeys(a);
      }
      if k in VendorKeys(b) {
        var i :| 0 <= i < |b| && VendorKeys(b)[i] == k;
        assert [b[i].vendor] in VendorKeys(b);
      }
    }
    AscendsUnique(VendorKeys(a), VendorKeys(b));
    assert forall i :: 0 <= i < |a| ==> VendorKeys(a)[i][0] == a[i].vendor && VendorKeys(b)[i][0] == b[i].vendor;
  }

  lemma {:induction false} KeysOfMember(v: string, keys: seq<string>, all: set<string>, k: string)
    ensures k in KeysOf(v, keys, all) <==> k in keys && VendorOf(k, all).0 == v
  {
    if keys != [] {
      var front, last := keys[..|keys| - 1], keys[|keys| - 1];
      KeysOfMember(v, front, all, k);
      assert k in keys <==> k in front || k == last;
    }
  }

  lemma KeysOfMembers(v: string, keys: seq<string>, all: set<string>)
    ensures forall k :: k in KeysOf(v, keys, all) <==> k in keys && VendorOf(k, all).0 == v
    ensures HasVendor(v, keys, all) <==> KeysOf(v, keys, all) != []
  {
    forall k
      ensures k in KeysOf(v, keys, all) <==> k in keys && VendorOf(k, all).0 == v
    {
      KeysOfMember(v, keys, all, k);
    }
    var ks := KeysOf(v, keys, all);
    if ks != [] {
      assert ks[0] in ks;
    }
  }

  lemma {:induction false} FirstPrimaryIs(v: string, keys: seq<string>, all: set<string>)
    ensures var p := FirstPrimary(v, keys, all);
            p != "" ==> p in KeysOf(v, keys, all) && VendorOf(p, all) == (v, true)
    ensures "" !in keys && FirstPrimary(v, keys, all) == "" ==> forall k :: k in keys ==> VendorOf(k, all) != (v, true)
  {
    if keys != [] {
      var front, k := keys[..|keys| - 1], keys[|keys| - 1];
      FirstPrimaryIs(v, front, all);
      assert keys == front + [k];
    }
  }

  /** Every row's headline key is one of its own, its counts are that key's
      entry, and it is a declared headline key whenever the vendor has one. */
  lemma HeadlineIsOwn(rows: seq<VendorSummary>, keys: seq<string>, alloc: Tally, used: Tally, i: nat)
    requires Grouping(rows, keys, alloc, used) && "" !in keys && i < |rows|
    ensures var r := rows[i];
            && r.primary in r.keys && r.primary in r.byKey && r.counts == r.byKey[r.primary]
            && ((exists k :: k in r.keys && VendorOf(k, LowerSet(keys)).1) ==> VendorOf(r.primary, LowerSet(keys)).1)
            && (forall k :: k in r.keys ==> k in r.byKey && r.byKey[k] == CountsOf(k, alloc, used))
  {
    var r := rows[i];
    var all := LowerSet(keys);
    assert [r.vendor] == VendorKeys(rows)[i];
    assert HasVendor(r.vendor, keys, all);
    KeysOfMembers(r.vendor, keys, all);
    FirstPrimaryIs(r.vendor, keys, all);
    var b := Bucket(r.vendor, keys, all, alloc, used);
    assert b.keys[0] in b.byKey;
    if exists k :: k in r.keys && VendorOf(k, all).1 {
      var k :| k in r.keys && VendorOf(k, all).1;
      assert VendorOf(k, all) == (r.vendor, true);
    }
  }

  function AllKeys(rows: seq<VendorSummary>): seq<string> {
    if rows == [] then [] else AllKeys(rows[..|rows| - 1]) + rows[|rows| - 1].keys
  }

  /** How often a row list lists a key, counted for keys that stem from it. */
  lemma {:induction false} AllKeysCount(rows: seq<VendorSummary>, keys: seq<string>, k: string, all: set<string>)
    requires forall i :: 0 <= i < |rows| ==> rows[i].keys == KeysOf(rows[i].vendor, keys, all)
    requires Distinct(VendorKeys(rows))
    ensures multiset(AllKeys(rows))[k]
            == if [VendorOf(k, all).0] in VendorKeys(rows) then multiset(keys)[k] else 0
  {
    if rows != [] {
      var front, r := rows[..|rows| - 1], rows[|rows| - 1];
      assert VendorKeys(front) == VendorKeys(rows)[..|front|];
      assert VendorKeys(rows) == VendorKeys(front) + [[r.vendor]];
      AllKeysCount(front, keys, k, all);
      KeysOfCount(r.vendor, keys, k, all);
      if VendorOf(k, all).0 == r.vendor {
        assert VendorKeys(rows)[|front|] == [r.vendor];
      }
    }
  }

  lemma {:induction false} KeysOfCount(v: string, keys: seq<string>, k: string, all: set<string>)
    ensures multiset(KeysOf(v, keys, all))[k] == if VendorOf(k, all).0 == v then multiset(keys)[k] else 0
  {
    if keys != [] {
      KeysOfCount(v, keys[..|keys| - 1], k, all);
      assert keys == keys[..|keys| - 1] + [keys[|keys| - 1]];
    }
  }

  /** The rows partition the keys: each key is listed exactly as often as it was
      given, in the row of its own vendor and in the given order. */
  lemma RowsPartitionKeys(rows: seq<VendorSummary>, keys: seq<string>, alloc: Tally, used: Tally)
    requires Grouping(rows, keys, alloc, used)
    ensures multiset(AllKeys(rows)) == multiset(keys)
    ensures forall i :: 0 <= i < |rows| ==> rows[i].keys == KeysOf(rows[i].vendor, keys, LowerSet(keys))
  {
    var all := LowerSet(keys);
    forall k
      ensures multiset(AllKeys(rows))[k] == multiset(keys)[k]
    {
      AscendsDistinct(VendorKeys(rows));
      AllKeysCount(rows, keys, k, all);
      if k in multiset(keys) {
        assert k in keys;
        assert HasVendor(VendorOf(k, all).0, keys, all);
      }
    }
  }

  lemma AscendsDistinct(ks: seq<Key>)
    requires Ascends(ks)
    ensures Distinct(ks)
  {
    forall i, j | 0 <= i < j < |ks|
      ensures ks[i] != ks[j]
    {
      Total(ks[i], ks[j]);
    }
  }

  /** When one of HAMi's auxiliary keys is among the keys, no nvidia.com key is
      in an NVIDIA row, and there is no such row at all. */
  lemma HamiTakesNvidia(rows: seq<VendorSummary>, keys: seq<string>, alloc: Tally, used: Tally)
    requires Grouping(rows, keys, alloc, used) && HamiManaged(LowerSet(keys))
    requires forall k :: k in keys ==> '/' in k && k[0] != '/'
    ensures ["NVIDIA"] !in VendorKeys(rows)
    ensures forall i, k :: 0 <= i < |rows| && k in rows[i].keys && "nvidia.com/" <= Lower(k) ==> rows[i].vendor == "HAMi"
  {
    var all := LowerSet(keys);
    forall k | k in keys
      ensures VendorOf(k, all).0 != "NVIDIA"
    {
      NvidiaIff(k, all);
    }
    forall i, k | 0 <= i < |rows| && k in rows[i].keys && "nvidia.com/" <= Lower(k)
      ensures rows[i].vendor == "HAMi"
    {
      KeysOfMembers(rows[i].vendor, keys, all);
    }
  }

  // ----- the headline ------------------------------------------------------

  function Summary(rows: seq<VendorSummary>): Counts {
    if rows == [] then ZERO
    else
      var s, c := Summary(rows[..|rows| - 1]), rows[|rows| - 1].counts;
      Counts(s.total + c.total, s.used + c.used, s.available + c.available)
  }

  predicate Oversubscribed(r: VendorSummary) {
    r.counts.used > r.counts.total
  }

  ghost predicate FromCounts(rows: seq<VendorSummary>, alloc: Tally, used: Tally) {
    forall i :: 0 <= i < |rows| ==> rows[i].counts == CountsOf(rows[i].primary, alloc, used)
  }

  /** The headline never understates what is free, and is exact when and only
      when no vendor's headline key is oversubscribed. */
  lemma {:induction false} SummaryBound(rows: seq<VendorSummary>, alloc: Tally, used: Tally)
    requires FromCounts(rows, alloc, used)
    ensures var s := Summary(rows);
            s.available >= s.total - s.used
            && (s.available == s.total - s.used <==> forall i :: 0 <= i < |rows| ==> !Oversubscribed(rows[i]))
  {
    if rows != [] {
      var front := rows[..|rows| - 1];
      SummaryBound(front, alloc, used);
      assert forall i :: 0 <= i < |front| ==> front[i] == rows[i];
    }
  }

  lemma GroupingCounts(rows: seq<VendorSummary>, keys: seq<string>, alloc: Tally, used: Tally)
    requires Grouping(rows, keys, alloc, used) && "" !in keys
    ensures FromCounts(rows, alloc, used)
  {
    forall i | 0 <= i < |rows|
      ensures rows[i].counts == CountsOf(rows[i].primary, alloc, used)
    {
      HeadlineIsOwn(rows, keys, alloc, used, i);
    }
  }

  // ----- the loops ---------------------------------------------------------

  method GroupByVendor(keys: seq<string>, alloc: Tally, used: Tally) returns (out: seq<VendorSummary>)
    requires "" !in keys
    ensures Grouping(out, keys, alloc, used)
  {
    var keySet := LowerKeySet(keys);
    var bucket: map<string, VendorSummary> := map[];
    for i := 0 to |keys|
      invariant forall v :: v in bucket <==> HasVendor(v, keys[..i], keySet)
      invariant forall v :: v in bucket ==> bucket[v] == Bucket(v, keys[..i], keySet, alloc, used)
    {
      assert keys[..i + 1][..i] == keys[..i];
      bucket := FoldKey(keys[..i + 1], keySet, alloc, used, bucket);
    }
    assert keys[..|keys|] == keys;
    ghost var names;
    names, out := CloseRows(bucket);
    RowsByName(names, out, keys, alloc, used);
  }

  method LowerKeySet(keys: seq<string>) returns (keySet: set<string>)
    ensures keySet == LowerSet(keys)
  {
    keySet := {};
    for i := 0 to |keys|
      invariant keySet == LowerSet(keys[..i])
    {
      assert keys[..i + 1] == keys[..i] + [keys[i]];
      keySet := keySet + {Lower(keys[i])};
    }
    assert keys[..|keys|] == keys;
  }

  /** The body of the first loop: fold the last key in. */
  method FoldKey(keys: seq<string>, all: set<string>, alloc: Tally, used: Tally, bucket: map<string, VendorSummary>)
    returns (r: map<string, VendorSummary>)
    requires keys != [] && "" !in keys
    requires var front := keys[..|keys| - 1];
             && (forall v :: v in bucket <==> HasVendor(v, front, all))
             && (forall v :: v in bucket ==> bucket[v] == Bucket(v, front, all, alloc, used))
    ensures forall v :: v in r <==> HasVendor(v, keys, all)
    ensures forall v :: v in r ==> r[v] == Bucket(v, keys, all, alloc, used)
  {
    var k := keys[|keys| - 1];
    var (vendor, primary) := VendorOf(k, all);
    NewBucket(vendor, keys[..|keys| - 1], all, alloc, used);
    var row := VendorSummary(vendor, [], ZERO, map[], "");
    if vendor in bucket {
      row := bucket[vendor];
    }
    row := AddKey(row, k, primary, alloc, used);
    BucketStep(vendor, keys, all, alloc, used);
    assert row == Bucket(vendor, keys, all, alloc, used);
    r := bucket[vendor := row];
    VendorStep(keys, all);
    forall v | v in r && v != vendor
      ensures r[v] == Bucket(v, keys, all, alloc, used)
    {
      OtherBucketStep(v, keys, all, alloc, used);
    }
  }

  method AddKey(row: VendorSummary, k: string, primary: bool, alloc: Tally, used: Tally) returns (r: VendorSummary)
    ensures r.vendor == row.vendor && r.keys == row.keys + [k] && r.byKey == row.byKey[k := CountsOf(k, alloc, used)]
    ensures if primary && row.primary == "" then r.primary == k && r.counts == CountsOf(k, alloc, used)
            else r.primary == row.primary && r.counts == row.counts
  {
    var c := Counts(Amount(alloc, k), Amount(used, k), Amount(alloc, k) - Amount(used, k));
    if c.available < 0 {
      c := c.(available := 0);
    }
    r := row.(keys := row.keys + [k], byKey := row.byKey[k := c]);
    if primary && r.primary == "" {
      r := r.(primary := k, counts := c);
    }
  }

  lemma NewBucket(v: string, keys: seq<string>, all: set<string>, alloc: Tally, used: Tally)
    ensures !HasVendor(v, keys, all) ==> Bucket(v, keys, all, alloc, used) == VendorSummary(v, [], ZERO, map[], "")
  {
    KeysOfMembers(v, keys, all);
    FirstPrimaryIs(v, keys, all);
  }

  /** A key is folded into its own vendor's row. */
  lemma BucketStep(v: string, keys: seq<string>, all: set<string>, alloc: Tally, used: Tally)
    requires keys != [] && VendorOf(keys[|keys| - 1], all).0 == v
    ensures var k := keys[|keys| - 1];
            var a, b := Bucket(v, keys[..|keys| - 1], all, alloc, used), Bucket(v, keys, all, alloc, used);
            var c := CountsOf(k, alloc, used);
            b.keys == a.keys + [k] && b.byKey == a.byKey[k := c]
            && if VendorOf(k, all).1 && a.primary == "" && k != "" then b.primary == k && b.counts == c
               else k != "" ==> b.primary == a.primary && b.counts == a.counts
  {
  }

  lemma OtherBucketStep(v: string, keys: seq<string>, all: set<string>, alloc: Tally, used: Tally)
    requires keys != [] && VendorOf(keys[|keys| - 1], all).0 != v
    ensures Bucket(v, keys, all, alloc, used) == Bucket(v, keys[..|keys| - 1], all, alloc, used)
  {
    assert KeysOf(v, keys, all) == KeysOf(v, keys[..|keys| - 1], all);
  }

  lemma VendorStep(keys: seq<string>, all: set<string>)
    requires keys != []
    ensures forall v :: HasVendor(v, keys, all)
              <==> HasVendor(v, keys[..|keys| - 1], all) || v == VendorOf(keys[|keys| - 1], all).0
  {
    var front, k := keys[..|keys| - 1], keys[|keys| - 1];
    assert keys == front + [k];
    assert k in keys;
    forall v
      ensures HasVendor(v, keys, all) <==> HasVendor(v, front, all) || v == VendorOf(k, all).0
    {
      KeysOfMembers(v, keys, all);
      KeysOfMembers(v, front, all);
    }
  }

  method CloseRow(row: VendorSummary) returns (r: VendorSummary)
    requires forall k :: k in row.keys ==> k in row.byKey
    ensures r == Closed(row)
  {
    r := row;
    if r.primary == "" && |r.keys| > 0 {
      r := r.(primary := r.keys[0], counts := r.byKey[r.keys[0]]);
    }
  }

  /** The second loop and the sort: the map's rows, finished, by vendor. */
  method CloseRows(bucket: map<string, VendorSummary>) returns (names: seq<string>, out: seq<VendorSummary>)
    requires forall v, k :: v in bucket && k in bucket[v].keys ==> k in bucket[v].byKey
    ensures Ascends(Singles(names)) && forall v :: v in names <==> v in bucket
    ensures |out| == |names| && forall j :: 0 <= j < |out| ==> out[j] == Closed(bucket[names[j]])
  {
    names := ListNames(bucket.Keys);
    out := [];
    for i := 0 to |names|
      invariant |out| == i
      invariant forall j :: 0 <= j < i ==> out[j] == Closed(bucket[names[j]])
    {
      var row := CloseRow(bucket[names[i]]);
      out := out + [row];
    }
  }

  lemma RowsByName(names: seq<string>, out: seq<VendorSummary>, keys: seq<string>, alloc: Tally, used: Tally)
    requires |out| == |names| && forall j :: 0 <= j < |out| ==> out[j] == RowOf(names[j], keys, alloc, used)
    requires Ascends(Singles(names)) && forall v :: v in names <==> HasVendor(v, keys, LowerSet(keys))
    ensures Grouping(out, keys, alloc, used)
  {
    assert forall j :: 0 <= j < |out| ==> out[j].vendor == names[j];
    assert VendorKeys(out) == Singles(names);
    forall v
      ensures [v] in VendorKeys(out) <==> v in names
    {
      SinglesMember(names, [v]);
    }
  }
}
