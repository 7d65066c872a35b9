/** What the rows and the summary of a report show, by the resource keys
    themselves: each family's label, which key is its headline count, and what is
    added up. */
module GpuHeadlines {
  import opened Text
  import opened Order
  import opened GpuTally
  import opened GpuVendors
  import opened GpuStatus

  /** The key, in whatever case, is among these. */
  predicate Has(keys: seq<string>, x: string) {
    exists k | k in keys :: Lower(k) == x
  }

  predicate Managed(keys: seq<string>) {
    Has(keys, "nvidia.com/gpualloc") || Has(keys, "nvidia.com/gpucores") || Has(keys, "nvidia.com/gpumem")
  }

  /** The key that counts the cards of the nvidia.com family. */
  function NvidiaCount(keys: seq<string>): string {
    if Has(keys, "nvidia.com/gpualloc") then "nvidia.com/gpualloc" else "nvidia.com/gpu"
  }

  /** The families: a key belongs to at most one of the first seven. */
  predicate Headline(l: string, keys: seq<string>) {
    && ("nvidia.com/" <= l ==> l == NvidiaCount(keys))
    && ("amd.com/" <= l ==> l == "amd.com/gpu")
    && ("hami.io/" <= l ==> l == "hami.io/vgpu")
    && ("intel.com/" <= l ==> l == "intel.com/gpu")
    && ("aliyun.com/" <= l ==> HasSuffix(l, "/gpu"))
    && ("rocm.amd.com/" <= l ==> l == "rocm.amd.com/gpu")
  }

  predicate Other(l: string) {
    !("nvidia.com/" <= l) && !("amd.com/" <= l) && !("huawei.com/ascend" <= l) && !("huawei.com/npu" <= l)
    && !("hami.io/" <= l) && !("intel.com/" <= l) && !("aliyun.com/" <= l) && !("rocm.amd.com/" <= l)
  }

  // ----- labels ------------------------------------------------------------

  lemma Letters(l: string)
    ensures "nvidia.com/" <= l ==> l[0] == 'n'
    ensures "amd.com/" <= l ==> l[0] == 'a' && l[1] == 'm'
    ensures "huawei.com/ascend" <= l ==> l[0] == 'h' && l[1] == 'u'
    ensures "huawei.com/npu" <= l ==> l[0] == 'h' && l[1] == 'u'
    ensures "hami.io/" <= l ==> l[0] == 'h' && l[1] == 'a'
    ensures "intel.com/" <= l ==> l[0] == 'i'
    ensures "aliyun.com/" <= l ==> l[0] == 'a' && l[1] == 'l'
    ensures "rocm.amd.com/" <= l ==> l[0] == 'r'
  {
  }

  lemma HasIsIn(keys: seq<string>, x: string)
    ensures Has(keys, x) <==> x in LowerSet(keys)
  {
  }

  lemma ManagedIs(keys: seq<string>)
    ensures HamiManaged(LowerSet(keys)) <==> Managed(keys)
  {
    HasIsIn(keys, "nvidia.com/gpualloc");
    HasIsIn(keys, "nvidia.com/gpucores");
    HasIsIn(keys, "nvidia.com/gpumem");
  }

  /** The label each family gets. */
  lemma LabelsByPrefix(k: string, keys: seq<string>)
    ensures var l, v := Lower(k), VendorOf(k, LowerSet(keys)).0;
            && ("nvidia.com/" <= l ==> v == if Managed(keys) then "HAMi" else "NVIDIA")
            && ("amd.com/" <= l ==> v == "AMD")
            && ("huawei.com/ascend" <= l || "huawei.com/npu" <= l ==> v == "Huawei NPU")
            && ("hami.io/" <= l ==> v == "HAMi")
            && ("intel.com/" <= l ==> v == "Intel")
            && ("aliyun.com/" <= l ==> v == "Aliyun")
            && ("rocm.amd.com/" <= l ==> v == "AMD ROCm")
            && (Other(l) ==> v == OtherVendor(k))
  {
    Letters(Lower(k));
    ManagedIs(keys);
  }

  /** Any other key: what stands before its first slash, with a capital. */
  lemma OtherLabel(k: string, i: nat)
    requires 0 < i < |k| && k[i] == '/' && '/' !in k[..i]
    ensures OtherVendor(k) == [UpperChar(Lower(k)[0])] + Lower(k)[1..i]
  {
    FirstSlash(Lower(k), i);
  }

  lemma FirstSlash(l: string, i: nat)
    requires i < |l| && l[i] == '/' && forall p :: 0 <= p < i ==> l[p] != '/'
    ensures IndexOf(l, "/") == i
  {
    assert At(l, "/", i) by { assert l[i..i + 1] == "/"; }
    var j := IndexOf(l, "/");
    assert l[j..j + 1][0] == l[j];
  }

  /** Where a key with a slash has its first one. */
  lemma {:induction false} SlashOf(k: string) returns (i: nat)
    requires '/' in k && k[0] != '/'
    ensures 0 < i < |k| && k[i] == '/' && '/' !in k[..i]
  {
    var s: nat :| s < |k| && k[s] == '/';
    i := SlashUpTo(k, s);
  }

  lemma {:induction false} SlashUpTo(k: string, s: nat) returns (i: nat)
    requires s < |k| && k[s] == '/' && k[0] != '/'
    ensures 0 < i < |k| && k[i] == '/' && '/' !in k[..i]
  {
    if '/' in k[..s] {
      var p: nat :| p < s && k[..s][p] == '/';
      i := SlashUpTo(k, p);
    } else {
      i := s;
    }
  }

  lemma PrimaryIsHeadline(k: string, keys: seq<string>)
    requires k in keys
    ensures VendorOf(k, LowerSet(keys)).1 <==> Headline(Lower(k), keys)
  {
    var l := Lower(k);
    Letters(l);
    ManagedIs(keys);
    HasIsIn(keys, "nvidia.com/gpualloc");
    HasIsIn(keys, l);
  }

  // ----- rows --------------------------------------------------------------

  /** Counts of one key: what there is, what is used, what is left. */
  predicate Tells(c: Counts, k: string, alloc: Tally, used: Tally) {
    && c.total == (if k in alloc then alloc[k] else 0)
    && c.used == (if k in used then used[k] else 0)
    && c.available == (if c.total > c.used then c.total - c.used else 0)
  }

  /** `keys[j]` is the first of the row's keys that is a headline, or the first of
      them all if none is. */
  ghost predicate LeadsAt(r: VendorSummary, keys: seq<string>, j: nat) {
    && j < |keys| && keys[j] in r.keys
    && (forall i :: 0 <= i < j && keys[i] in r.keys ==> !Headline(Lower(keys[i]), keys))
    && (Headline(Lower(keys[j]), keys)
        || (forall i :: 0 <= i < |keys| && keys[i] in r.keys ==> j <= i && !Headline(Lower(keys[i]), keys)))
  }

  lemma {:induction false} FirstPrimaryLeads(v: string, keys: seq<string>, all: set<string>) returns (j: nat)
    requires "" !in keys && FirstPrimary(v, keys, all) != ""
    ensures j < |keys| && keys[j] == FirstPrimary(v, keys, all)
    ensures forall i :: 0 <= i < j ==> VendorOf(keys[i], all) != (v, true)
  {
    var front := keys[..|keys| - 1];
    if FirstPrimary(v, front, all) != "" {
      j := FirstPrimaryLeads(v, front, all);
    } else {
      j := |keys| - 1;
      FirstPrimaryIs(v, front, all);
    }
  }

  lemma FirstInFront(v: string, keys: seq<string>, all: set<string>)
    requires keys != [] && KeysOf(v, keys[..|keys| - 1], all) != []
    ensures KeysOf(v, keys, all) != [] && KeysOf(v, keys, all)[0] == KeysOf(v, keys[..|keys| - 1], all)[0]
  {
  }

  lemma FirstIsLast(v: string, keys: seq<string>, all: set<string>)
    requires keys != [] && KeysOf(v, keys[..|keys| - 1], all) == [] && KeysOf(v, keys, all) != []
    ensures KeysOf(v, keys, all)[0] == keys[|keys| - 1]
  {
  }

  lemma {:induction false} FirstAt(v: string, keys: seq<string>, all: set<string>) returns (j: nat)
    requires KeysOf(v, keys, all) != []
    ensures j < |keys| && keys[j] == KeysOf(v, keys, all)[0] && KeysOf(v, keys[..j], all) == []
  {
    var front := keys[..|keys| - 1];
    if KeysOf(v, front, all) != [] {
      FirstInFront(v, keys, all);
      j := FirstAt(v, front, all);
      assert front[..j] == keys[..j];
    } else {
      FirstIsLast(v, keys, all);
      j := |keys| - 1;
    }
  }

  lemma NotBefore(v: string, keys: seq<string>, all: set<string>, j: nat, i: nat)
    requires i < j <= |keys| && KeysOf(v, keys[..j], all) == []
    ensures VendorOf(keys[i], all).0 != v
  {
    assert keys[..j][i] == keys[i];
    KeysOfMember(v, keys[..j], all, keys[i]);
  }

  lemma FirstOfVendor(v: string, keys: seq<string>, all: set<string>) returns (j: nat)
    requires KeysOf(v, keys, all) != []
    ensures j < |keys| && keys[j] == KeysOf(v, keys, all)[0]
    ensures forall i :: 0 <= i < j ==> VendorOf(keys[i], all).0 != v
  {
    j := FirstAt(v, keys, all);
    forall i | 0 <= i < j
      ensures VendorOf(keys[i], all).0 != v
    {
      NotBefore(v, keys, all, j, i);
    }
  }

  /** What each row shows: the counts of its first headline key, or of its first
      key where it has no headline key. */
  lemma RowLeads(rows: seq<VendorSummary>, keys: seq<string>, alloc: Tally, used: Tally, i: nat) returns (j: nat)
    requires Grouping(rows, keys, alloc, used) && "" !in keys && i < |rows|
    ensures LeadsAt(rows[i], keys, j) && rows[i].primary == keys[j] && Tells(rows[i].counts, keys[j], alloc, used)
    ensures forall k :: k in rows[i].keys <==> k in keys && VendorOf(k, LowerSet(keys)).0 == rows[i].vendor
  {
    var r, all := rows[i], LowerSet(keys);
    HeadlineIsOwn(rows, keys, alloc, used, i);
    KeysOfMembers(r.vendor, keys, all);
    FirstPrimaryIs(r.vendor, keys, all);
    forall k | k in keys
      ensures VendorOf(k, all).1 <==> Headline(Lower(k), keys)
    {
      PrimaryIsHeadline(k, keys);
    }
    if FirstPrimary(r.vendor, keys, all) != "" {
      j := FirstPrimaryLeads(r.vendor, keys, all);
    } else {
      j := FirstOfVendor(r.vendor, keys, all);
    }
  }

  /** The row of the nvidia.com family, which HAMi's auxiliary keys turn into
      HAMi's: it shows nvidia.com/gpualloc where there is one, else
      nvidia.com/gpu, unless HAMi's own hami.io/vgpu is there. */
  lemma NvidiaRow(rows: seq<VendorSummary>, keys: seq<string>, alloc: Tally, used: Tally, i: nat)
    requires Grouping(rows, keys, alloc, used) && "" !in keys && i < |rows|
    requires forall k :: k in keys ==> '/' in k && k[0] != '/'
    requires rows[i].vendor == (if Managed(keys) then "HAMi" else "NVIDIA")
    requires !Has(keys, "hami.io/vgpu") && Has(keys, NvidiaCount(keys))
    ensures Lower(rows[i].primary) == NvidiaCount(keys) && Tells(rows[i].counts, rows[i].primary, alloc, used)
  {
    var j := RowLeads(rows, keys, alloc, used, i);
    var x: string :| x in keys && Lower(x) == NvidiaCount(keys);
    LabelsByPrefix(x, keys);
    assert "nvidia.com/" <= Lower(x);
    assert Headline(Lower(x), keys) by { Letters(Lower(x)); }
    LeadIsHeadline(rows[i], keys, j, x);
    NotOtherwise(keys[j], keys);
  }

  /** Where a row has a headline key, it shows one. */
  lemma LeadIsHeadline(r: VendorSummary, keys: seq<string>, j: nat, x: string)
    requires LeadsAt(r, keys, j) && x in keys && x in r.keys && Headline(Lower(x), keys)
    ensures Headline(Lower(keys[j]), keys)
  {
    var i :| 0 <= i < |keys| && keys[i] == x;
  }

  /** A headline key labelled HAMi or NVIDIA is of the nvidia.com family, or is
      hami.io/vgpu. */
  lemma NotOtherwise(k: string, keys: seq<string>)
    requires k in keys && '/' in k && k[0] != '/' && Headline(Lower(k), keys)
    requires VendorOf(k, LowerSet(keys)).0 in {"HAMi", "NVIDIA"}
    ensures Lower(k) == NvidiaCount(keys) || Lower(k) == "hami.io/vgpu"
  {
    LabelsByPrefix(k, keys);
    LabelsDiffer();
    OtherIsLower(k);
  }

  /** The labels the families get, told apart by a letter or by their length. */
  lemma LabelsDiffer()
    ensures |"HAMi"| == 4 && "HAMi"[1] == 'A' && |"NVIDIA"| == 6 && "NVIDIA"[1] == 'V'
    ensures |"AMD"| == 3 && "AMD"[1] == 'M' && |"AMD ROCm"| == 8 && "AMD ROCm"[1] == 'M'
    ensures |"Huawei NPU"| == 10 && "Huawei NPU"[7] == 'N' && |"Intel"| == 5 && |"Aliyun"| == 6 && "Aliyun"[1] == 'l'
  {
  }

  /** The families with one headline key each, by their labels. */
  predicate Family(name: string, x: string) {
    || (name == "AMD" && x == "amd.com/gpu")
    || (name == "AMD ROCm" && x == "rocm.amd.com/gpu")
    || (name == "Intel" && x == "intel.com/gpu")
    || (name == "HAMi" && x == "hami.io/vgpu")
  }

  /** Such a row shows that key, where it is there; nobody advertises a resource
      of a bare "intel", and nvidia.com is not managed by HAMi. */
  lemma FamilyRow(rows: seq<VendorSummary>, keys: seq<string>, alloc: Tally, used: Tally, i: nat, x: string)
    requires Grouping(rows, keys, alloc, used) && "" !in keys && i < |rows|
    requires forall k :: k in keys ==> '/' in k && k[0] != '/' && !("intel/" <= Lower(k))
    requires Family(rows[i].vendor, x) && Has(keys, x) && !Managed(keys)
    ensures Lower(rows[i].primary) == x && Tells(rows[i].counts, rows[i].primary, alloc, used)
  {
    var j := RowLeads(rows, keys, alloc, used, i);
    var y: string :| y in keys && Lower(y) == x;
    FamilyHeadline(y, keys, rows[i].vendor, x);
    LeadIsHeadline(rows[i], keys, j, y);
    OfTheFamily(keys[j], keys, rows[i].vendor, x);
  }

  lemma FamilyHeadline(y: string, keys: seq<string>, name: string, x: string)
    requires Lower(y) == x && Family(name, x)
    ensures VendorOf(y, LowerSet(keys)).0 == name && Headline(Lower(y), keys)
  {
    LabelsByPrefix(y, keys);
    FamilyPrefix(name, x);
    OnlyHeadline(x, keys);
  }

  lemma FamilyPrefix(name: string, x: string)
    requires Family(name, x)
    ensures x == "amd.com/gpu" || x == "rocm.amd.com/gpu" || x == "intel.com/gpu" || x == "hami.io/vgpu"
    ensures name == "AMD" <==> "amd.com/" <= x
    ensures name == "AMD ROCm" <==> "rocm.amd.com/" <= x
    ensures name == "Intel" <==> "intel.com/" <= x
    ensures name == "HAMi" <==> "hami.io/" <= x
  {
    assert "amd.com/gpu"[0] == 'a' && "rocm.amd.com/gpu"[0] == 'r' && "intel.com/gpu"[0] == 'i' && "hami.io/vgpu"[0] == 'h';
    LabelsDiffer();
  }

  lemma OnlyHeadline(x: string, keys: seq<string>)
    requires x == "amd.com/gpu" || x == "rocm.amd.com/gpu" || x == "intel.com/gpu" || x == "hami.io/vgpu"
    ensures Headline(x, keys)
  {
    Letters(x);
  }

  lemma OfTheFamily(k: string, keys: seq<string>, name: string, x: string)
    requires k in keys && '/' in k && k[0] != '/' && !("intel/" <= Lower(k)) && Headline(Lower(k), keys)
    requires VendorOf(k, LowerSet(keys)).0 == name && Family(name, x) && !Managed(keys)
    ensures Lower(k) == x
  {
    LabelsByPrefix(k, keys);
    LabelsDiffer();
    OtherIsLower(k);
    if Other(Lower(k)) {
      Bares();
      NotBare(k, "Intel", "intel/");
    }
  }

  /** The name is the text before the slash, capitalised. */
  predicate BareOf(name: string, bare: string) {
    && name != "" && |bare| == |name| + 1 && bare[|name|] == '/' && 'a' <= bare[0] <= 'z' && UpperChar(bare[0]) == name[0]
    && forall p :: 1 <= p < |name| ==> bare[p] == name[p]
  }

  lemma Bares()
    ensures BareOf("Intel", "intel/") && BareOf("Aliyun", "aliyun/")
  {
  }

  /** A made-up label tells how its key starts. */
  lemma NotBare(k: string, name: string, bare: string)
    requires '/' in k && k[0] != '/' && BareOf(name, bare) && !(bare <= Lower(k))
    ensures OtherVendor(k) != name
  {
    var i := SlashOf(k);
    OtherLabel(k, i);
    BareLabel(Lower(k), i, name, bare);
  }

  lemma BareLabel(l: string, i: nat, name: string, bare: string)
    requires 0 < i < |l| && l[i] == '/' && !('A' <= l[0] <= 'Z') && !(bare <= l) && BareOf(name, bare)
    ensures [UpperChar(l[0])] + l[1..i] != name
  {
  }

  /** Alibaba's row shows its first key that ends in "/gpu", where there is one. */
  lemma AliyunRow(rows: seq<VendorSummary>, keys: seq<string>, alloc: Tally, used: Tally, i: nat, x: string) returns (j: nat)
    requires Grouping(rows, keys, alloc, used) && "" !in keys && i < |rows| && rows[i].vendor == "Aliyun"
    requires x in keys && "aliyun.com/" <= Lower(x) && HasSuffix(Lower(x), "/gpu")
    requires forall k :: k in keys ==> '/' in k && k[0] != '/' && !("aliyun/" <= Lower(k))
    ensures j < |keys| && rows[i].primary == keys[j] && Tells(rows[i].counts, keys[j], alloc, used)
    ensures "aliyun.com/" <= Lower(keys[j]) && HasSuffix(Lower(keys[j]), "/gpu")
    ensures forall p :: 0 <= p < j && "aliyun.com/" <= Lower(keys[p]) ==> !HasSuffix(Lower(keys[p]), "/gpu")
  {
    j := RowLeads(rows, keys, alloc, used, i);
    LabelsByPrefix(x, keys);
    AliyunHeadline(Lower(x), keys);
    LeadIsHeadline(rows[i], keys, j, x);
    OnlyAliyun(keys[j], keys);
    AliyunHeadline(Lower(keys[j]), keys);
    forall p | 0 <= p < j && "aliyun.com/" <= Lower(keys[p])
      ensures !HasSuffix(Lower(keys[p]), "/gpu")
    {
      LabelsByPrefix(keys[p], keys);
      assert keys[p] in keys;
      AliyunHeadline(Lower(keys[p]), keys);
    }
  }

  lemma OnlyAliyun(k: string, keys: seq<string>)
    requires '/' in k && k[0] != '/' && !("aliyun/" <= Lower(k)) && VendorOf(k, LowerSet(keys)).0 == "Aliyun"
    ensures "aliyun.com/" <= Lower(k)
  {
    LabelsByPrefix(k, keys);
    LabelsDiffer();
    if Other(Lower(k)) {
      Bares();
      NotBare(k, "Aliyun", "aliyun/");
    }
  }

  lemma AliyunHeadline(l: string, keys: seq<string>)
    requires "aliyun.com/" <= l
    ensures Headline(l, keys) <==> HasSuffix(l, "/gpu")
  {
    Letters(l);
  }

  predicate Huawei(l: string) {
    "huawei.com/ascend" <= l || "huawei.com/npu" <= l
  }

  /** Huawei's row shows its first key, and so does that of any other vendor. */
  lemma FirstKeyRow(rows: seq<VendorSummary>, keys: seq<string>, alloc: Tally, used: Tally, i: nat) returns (j: nat)
    requires Grouping(rows, keys, alloc, used) && "" !in keys && i < |rows|
    requires forall k :: k in rows[i].keys ==> Huawei(Lower(k)) || Other(Lower(k))
    ensures j < |keys| && rows[i].primary == keys[j] && Tells(rows[i].counts, keys[j], alloc, used)
    ensures keys[j] in rows[i].keys && forall p :: 0 <= p < j ==> keys[p] !in rows[i].keys
  {
    j := RowLeads(rows, keys, alloc, used, i);
    forall k | k in rows[i].keys
      ensures Headline(Lower(k), keys)
    {
      Letters(Lower(k));
    }
  }

  // ----- the summary -------------------------------------------------------

  /** The summary adds up what the rows show. */
  lemma SummaryAdds(rows: seq<VendorSummary>, r: VendorSummary)
    ensures Summary([]) == Counts(0, 0, 0)
    ensures var a, b := Summary(rows + [r]), Summary(rows);
            && a.total == b.total + r.counts.total && a.used == b.used + r.counts.used
            && a.available == b.available + r.counts.available
  {
    assert (rows + [r])[..|rows|] == rows;
  }

  /** On a cluster whose accelerators are all of the nvidia.com family the summary
      is what there is, what is used and what is left of the one key that counts
      cards: nvidia.com/gpualloc, or else nvidia.com/gpu, HAMi or not. */
  lemma NvidiaSummary(out: Status, nodes: seq<Node>, pods: seq<Pod>, x: string)
    requires ReportsOn(out, nodes, pods)
    requires var total, used := Sum(Capacities(nodes)), Sum(LiveAmounts(pods));
             && (forall k :: k in total || k in used ==> "nvidia.com/" <= k == Lower(k))
             && (x in total || x in used)
             && x == (if "nvidia.com/gpualloc" in total || "nvidia.com/gpualloc" in used then "nvidia.com/gpualloc"
                      else "nvidia.com/gpu")
    ensures |out.vendors| == 1 && out.vendors[0].primary == x
    ensures Tells(out.summary, x, Sum(Capacities(nodes)), Sum(LiveAmounts(pods)))
  {
    var total, used := Sum(Capacities(nodes)), RowTally(Rows(pods), All);
    UsageIsContainers(pods);
    var ks :| IsKeyList(ks, total, used) && Grouping(out.vendors, ks, total, used);
    KeyListIs(ks, total, used);
    OneRow(out.vendors, ks, total, used, x);
    var j := RowLeads(out.vendors, ks, total, used, 0);
    HeadlineSum(out.vendors);
  }

  lemma HeadlineSum(rows: seq<VendorSummary>)
    requires |rows| == 1
    ensures Summary(rows) == rows[0].counts
  {
    assert rows == [] + [rows[0]];
    SummaryAdds([], rows[0]);
  }

  lemma KeyListIs(ks: seq<string>, alloc: Tally, used: Tally)
    requires IsKeyList(ks, alloc, used)
    ensures forall k :: k in ks <==> k in alloc || k in used
  {
  }

  lemma OneRow(rows: seq<VendorSummary>, ks: seq<string>, alloc: Tally, used: Tally, x: string)
    requires Grouping(rows, ks, alloc, used) && x in ks
    requires forall k :: k in ks ==> "nvidia.com/" <= k == Lower(k)
    requires x == (if "nvidia.com/gpualloc" in ks then "nvidia.com/gpualloc" else "nvidia.com/gpu")
    ensures |rows| == 1 && rows[0].primary == x && Tells(rows[0].counts, x, alloc, used)
  {
    var v := if Managed(ks) then "HAMi" else "NVIDIA";
    forall k | k in ks
      ensures VendorOf(k, LowerSet(ks)).0 == v && '/' in k && k[0] != '/' && k != ""
    {
      LabelsByPrefix(k, ks);
      assert k[10] == '/';
    }
    SoleRow(rows, ks, alloc, used, v);
    NvidiaCountIs(ks, x);
    NvidiaRow(rows, ks, alloc, used, 0);
    HeadlineIsOwn(rows, ks, alloc, used, 0);
    RowsPartitionKeys(rows, ks, alloc, used);
    KeysOfMembers(v, ks, LowerSet(ks));
  }

  /** Keys of one vendor make one row. */
  lemma SoleRow(rows: seq<VendorSummary>, ks: seq<string>, alloc: Tally, used: Tally, v: string)
    requires Grouping(rows, ks, alloc, used) && ks != [] && forall k :: k in ks ==> VendorOf(k, LowerSet(ks)).0 == v
    ensures |rows| == 1 && rows[0].vendor == v
  {
    forall i | 0 <= i < |rows|
      ensures rows[i].vendor == v
    {
      assert VendorKeys(rows)[i] == [rows[i].vendor];
      assert HasVendor(rows[i].vendor, ks, LowerSet(ks));
    }
    assert ks[0] in ks;
    assert HasVendor(v, ks, LowerSet(ks));
    assert [v] in VendorKeys(rows);
    if |rows| >= 2 {
      NotDistinct(VendorKeys(rows), [v]);
    }
    AscendsDistinct(VendorKeys(rows));
  }

  lemma NotDistinct(ks: seq<Key>, k: Key)
    requires |ks| >= 2 && forall i :: 0 <= i < |ks| ==> ks[i] == k
    ensures !Distinct(ks)
  {
    assert ks[0] == ks[1];
  }

  lemma NvidiaCountIs(ks: seq<string>, x: string)
    requires x in ks && forall k :: k in ks ==> "nvidia.com/" <= k == Lower(k)
    requires x == (if "nvidia.com/gpualloc" in ks then "nvidia.com/gpualloc" else "nvidia.com/gpu")
    ensures NvidiaCount(ks) == x && Has(ks, x) && !Has(ks, "hami.io/vgpu")
  {
    if Has(ks, "nvidia.com/gpualloc") {
      var k :| k in ks && Lower(k) == "nvidia.com/gpualloc";
    }
    assert forall k :: k in ks ==> Lower(k)[0] == 'n';
    assert Lower(x) == x;
  }
}
