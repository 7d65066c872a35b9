/** Accelerator resource keys: which ones count, and how the metrics exporter's
    mangled names are turned back into them. */
module GpuKeys {

  predicate IsAcceleratorKey(k: string) {
    if k == "cpu" || k == "memory" || k == "pods" || k == "ephemeral-storage" then false
    else if "hugepages-" <= k || "attachable-volumes-" <= k || "storage-" <= k then false
    else '/' in k
  }

  predicate IsAlnum(c: char) {
    'a' <= c <= 'z' || 'A' <= c <= 'Z' || '0' <= c <= '9'
  }

  /** kube-state-metrics' label sanitizer: all but letters, digits and `_` become `_`. */
  function Mangle(k: string): (m: string)
    ensures |m| == |k|
    ensures forall i :: 0 <= i < |k| ==> m[i] == if IsAlnum(k[i]) then k[i] else '_'
  {
    if k == "" then "" else [if IsAlnum(k[0]) then k[0] else '_'] + Mangle(k[1..])
  }

  function LastUnderscore(s: string): (i: int)
    ensures -1 <= i < |s|
    ensures i >= 0 ==> s[i] == '_'
    ensures forall j :: i < j < |s| ==> s[j] != '_'
  {
    if s == "" then -1 else if s[|s| - 1] == '_' then |s| - 1 else LastUnderscore(s[..|s| - 1])
  }

  function Dotted(s: string): (d: string)
    ensures |d| == |s|
    ensures forall i :: 0 <= i < |s| ==> d[i] == if s[i] == '_' then '.' else s[i]
  {
    if s == "" then "" else [if s[0] == '_' then '.' else s[0]] + Dotted(s[1..])
  }

  function CanonicalResourceKey(ks: string): string {
    var idx := LastUnderscore(ks);
    if idx < 0 then ks
    else
      var group, res := Dotted(ks[..idx]), ks[idx + 1..];
      if group == "" then res else group + "/" + res
  }

  /** The last underscore becomes the slash, unless nothing is before it, and those
      before it dots; without one a label stays as it is. */
  lemma CanonicalIs(group: string, resource: string)
    requires '_' !in resource
    ensures var key := CanonicalResourceKey(group + "_" + resource);
            if group == "" then key == resource
            else
              |key| == |group| + 1 + |resource| && key[|group|] == '/' && key[|group| + 1..] == resource
              && forall i :: 0 <= i < |group| ==> key[i] == if group[i] == '_' then '.' else group[i]
    ensures CanonicalResourceKey(resource) == resource
  {
    var label_ := group + "_" + resource;
    forall j | |group| < j < |label_|
      ensures label_[j] != '_'
    {
      assert label_[j] == resource[j - |group| - 1];
    }
    assert label_[|group|] == '_';
    assert LastUnderscore(label_) == |group|;
    assert label_[..|group|] == group && label_[|group| + 1..] == resource;
    assert LastUnderscore(resource) == -1;
  }

  // ----- the grammar on which the mangling can be undone -------------------

  predicate IsGroup(g: string) {
    g != "" && forall i :: 0 <= i < |g| ==> IsAlnum(g[i]) || g[i] == '.'
  }

  predicate IsResource(r: string) {
    forall i :: 0 <= i < |r| ==> IsAlnum(r[i])
  }

  /** `k` is group/resource with dots only in the group and nothing but letters
      and digits elsewhere; `i` is where the slash stands. */
  predicate SplitsAt(k: string, i: nat) {
    i < |k| && k[i] == '/' && IsGroup(k[..i]) && IsResource(k[i + 1..])
  }

  ghost predicate Plain(k: string) {
    exists i :: SplitsAt(k, i)
  }

  lemma SplitRoundTrips(k: string, i: nat)
    requires SplitsAt(k, i)
    ensures CanonicalResourceKey(Mangle(k)) == k
  {
    var m := Mangle(k);
    SlashIsLast(k, i);
    GroupDots(k, i);
    ResourceStays(k, i);
    CutAt(k, i);
    assert CanonicalResourceKey(m) == k[..i] + "/" + k[i + 1..];
  }

  lemma CutAt(k: string, i: nat)
    requires i < |k| && k[i] == '/'
    ensures k == k[..i] + "/" + k[i + 1..]
  {
  }

  lemma SlashIsLast(k: string, i: nat)
    requires SplitsAt(k, i)
    ensures LastUnderscore(Mangle(k)) == i
  {
    forall j | i < j < |k|
      ensures Mangle(k)[j] != '_'
    {
      assert k[j] == k[i + 1..][j - i - 1];
    }
    assert Mangle(k)[i] == '_';
  }

  lemma GroupDots(k: string, i: nat)
    requires SplitsAt(k, i)
    ensures Dotted(Mangle(k)[..i]) == k[..i]
  {
    forall j | 0 <= j < i
      ensures Dotted(Mangle(k)[..i])[j] == k[..i][j]
    {
      assert k[j] == k[..i][j];
    }
  }

  lemma ResourceStays(k: string, i: nat)
    requires SplitsAt(k, i)
    ensures Mangle(k)[i + 1..] == k[i + 1..]
  {
    var a, b := Mangle(k)[i + 1..], k[i + 1..];
    forall j | 0 <= j < |b|
      ensures a[j] == b[j]
    {
      assert b[j] == k[i + 1 + j];
    }
  }

  /** Text that is its own mangled and dotted form holds only group characters. */
  lemma GroupOfDotted(k: string, n: nat)
    requires 0 < n <= |k| && Dotted(Mangle(k)[..n]) == k[..n]
    ensures IsGroup(k[..n])
  {
    forall j | 0 <= j < n
      ensures IsAlnum(k[..n][j]) || k[..n][j] == '.'
    {
      assert Dotted(Mangle(k)[..n])[j] == k[j];
    }
  }

  lemma RoundTripSplits(k: string)
    requires '/' in k && CanonicalResourceKey(Mangle(k)) == k
    ensures Plain(k)
  {
    var m := Mangle(k);
    var idx := LastUnderscore(m);
    var p :| 0 <= p < |k| && k[p] == '/';
    assert m[p] == '_' && idx >= p;
    var g, r := Dotted(m[..idx]), m[idx + 1..];
    assert |g| == idx && |r| == |k| - idx - 1;
    assert g != "" by { assert |CanonicalResourceKey(m)| == |k|; }
    JoinedParts(k, g, r);
    GroupOfDotted(k, idx);
    ResourceOfMangled(k, idx);
    assert SplitsAt(k, idx);
  }

  lemma JoinedParts(k: string, g: string, r: string)
    requires k == g + "/" + r
    ensures k[|g|] == '/' && k[..|g|] == g && k[|g| + 1..] == r
  {
  }

  lemma ResourceOfMangled(k: string, idx: nat)
    requires idx < |k| && Mangle(k)[idx + 1..] == k[idx + 1..] && forall j :: idx < j < |k| ==> Mangle(k)[j] != '_'
    ensures IsResource(k[idx + 1..])
  {
    var r := k[idx + 1..];
    forall j | 0 <= j < |r|
      ensures IsAlnum(r[j])
    {
      assert Mangle(k)[idx + 1 + j] == r[j];
    }
  }

  /** Undoing the mangling gives a slashed key back exactly on the documented
      grammar: a group of letters, digits and dots, one slash, and a resource
      of letters and digits. */
  lemma MangleRoundTrip(k: string)
    requires '/' in k
    ensures CanonicalResourceKey(Mangle(k)) == k <==> Plain(k)
  {
    if Plain(k) {
      var i: nat :| SplitsAt(k, i);
      SplitRoundTrips(k, i);
    } else if CanonicalResourceKey(Mangle(k)) == k {
      RoundTripSplits(k);
    }
  }

  lemma PlainHasSlash(k: string)
    requires Plain(k)
    ensures '/' in k
  {
    var i: nat :| SplitsAt(k, i);
    assert k[i] == '/';
  }

  /** A plain key is an accelerator key: none of the excluded prefixes fits. */
  lemma PlainIsAccelerator(k: string)
    requires Plain(k)
    ensures IsAcceleratorKey(k)
  {
    var i: nat :| SplitsAt(k, i);
    PlainHasSlash(k);
    forall d: nat | d < |k|
      ensures k[d] != '-'
    {
      if d < i { assert k[d] == k[..i][d]; } else if d > i { assert k[d] == k[i + 1..][d - i - 1]; }
    }
    NoHyphenPrefix(k);
  }

  // ----- the query's own filter --------------------------------------------

  /** The regular expression of both queries, `.+_.+_.+`, matched on the whole
      name: two underscores with something before, between and after. */
  predicate MatchesQuery(name: string) {
    exists i, j :: 1 <= i < |name| && i + 2 <= j < |name| && j + 2 <= |name| && name[i] == '_' && name[j] == '_'
  }

  /** The group has a dot with something on either side. */
  ghost predicate DotInside(k: string, i: nat) {
    i <= |k| && exists d :: 1 <= d && d + 2 <= i && k[d] == '.'
  }

  /** The query matches a plain key that names a resource exactly when the key's
      group is dotted inside. */
  lemma QueriedIff(k: string, i: nat)
    requires SplitsAt(k, i) && i + 1 < |k|
    ensures MatchesQuery(Mangle(k)) <==> DotInside(k, i)
  {
    var m := Mangle(k);
    if DotInside(k, i) {
      var d :| 1 <= d && d + 2 <= i && k[d] == '.';
      assert m[d] == '_' && m[i] == '_';
      assert MatchesQuery(m);
    }
    if MatchesQuery(m) {
      var a: nat, b: nat :| 1 <= a < |m| && a + 2 <= b < |m| && b + 2 <= |m| && m[a] == '_' && m[b] == '_';
      UnderscoreIsDotOrSlash(k, i, a);
      UnderscoreIsDotOrSlash(k, i, b);
      assert a < b <= i;
      assert DotInside(k, i);
    }
  }

  lemma UnderscoreIsDotOrSlash(k: string, i: nat, d: nat)
    requires SplitsAt(k, i) && d < |k| && Mangle(k)[d] == '_'
    ensures d == i || (d < i && k[d] == '.')
  {
    assert d < i ==> k[d] == k[..i][d];
    forall x | i < x < |k|
      ensures IsAlnum(k[x])
    {
      assert k[x] == k[i + 1..][x - i - 1];
    }
  }

  predicate IsLabel(s: string) {
    forall i :: 0 <= i < |s| ==> IsAlnum(s[i]) || s[i] == '_'
  }

  /** The filter that was meant to drop attachable-volume series after the query
      drops nothing: every sanitized name the query matches becomes a key with
      a slash and without a hyphen, which the excluded names and prefixes need. */
  lemma NothingIsTrimmed(name: string)
    requires IsLabel(name) && MatchesQuery(name)
    ensures IsAcceleratorKey(CanonicalResourceKey(name))
  {
    var i, j :| 1 <= i < |name| && i + 2 <= j < |name| && j + 2 <= |name| && name[i] == '_' && name[j] == '_';
    assert LastUnderscore(name) >= j;
    UnmangledIsAccelerator(name, LastUnderscore(name));
  }

  lemma UnmangledIsAccelerator(name: string, idx: nat)
    requires IsLabel(name) && 0 < idx < |name| && LastUnderscore(name) == idx
    ensures IsAcceleratorKey(CanonicalResourceKey(name))
  {
    var g, r := Dotted(name[..idx]), name[idx + 1..];
    assert |g| == idx;
    NoHyphens(name, idx);
    SlashedIsAccelerator(g, r);
  }

  lemma NoHyphens(name: string, idx: nat)
    requires IsLabel(name) && idx < |name|
    ensures '-' !in Dotted(name[..idx]) && '-' !in name[idx + 1..]
  {
    var g, r := Dotted(name[..idx]), name[idx + 1..];
    forall d | 0 <= d < |g|
      ensures g[d] != '-'
    {
      assert name[..idx][d] == name[d];
    }
    forall d | 0 <= d < |r|
      ensures r[d] != '-'
    {
      assert r[d] == name[idx + 1 + d];
    }
  }

  /** The series in question: whatever volume plugin an attachable-volumes key
      names, it is not an accelerator key, yet its exported name matches the query
      and counts as one once unmangled. */
  lemma AttachableVolumesShow(plugin: string)
    requires plugin != ""
    ensures var k := "attachable-volumes-" + plugin;
            !IsAcceleratorKey(k) && MatchesQuery(Mangle(k)) && IsAcceleratorKey(CanonicalResourceKey(Mangle(k)))
  {
    var k := "attachable-volumes-" + plugin;
    var m := Mangle(k);
    assert k[10] == '-' && k[18] == '-' && k[0] == 'a';
    assert m[10] == '_' && m[18] == '_' && |m| >= 20;
    NothingIsTrimmed(m);
  }

  lemma SlashedIsAccelerator(g: string, r: string)
    requires '-' !in g && '-' !in r
    ensures IsAcceleratorKey(g + "/" + r)
  {
    var k := g + "/" + r;
    assert k[|g|] == '/';
    NoHyphenPrefix(k);
  }

  lemma NoHyphenPrefix(k: string)
    requires '-' !in k
    ensures !("hugepages-" <= k) && !("attachable-volumes-" <= k) && !("storage-" <= k)
  {
    assert "hugepages-"[9] == '-' && "attachable-volumes-"[18] == '-' && "storage-"[7] == '-';
  }
}
