/** What one detection finds, by the names themselves: which ClusterServiceVersion
    or Helm release is taken for a component's, and what its entry then says. */
module Detection {
  import opened Text
  import opened Components

  // ----- names -------------------------------------------------------------

  function Trimmed(names: seq<string>): (r: seq<string>)
    ensures |r| == |names| && forall i :: 0 <= i < |names| ==> r[i] == Trim(Unicode, names[i])
  {
    seq(|names|, i requires 0 <= i < |names| => Trim(Unicode, names[i]))
  }

  /** `x` is there before any `y` is. */
  ghost predicate Before(names: seq<string>, x: string, y: string) {
    exists a :: 0 <= a < |names| && names[a] == x && y !in names[..a + 1]
  }

  lemma BeforeNow(names: seq<string>, x: string, y: string)
    requires names != [] && names[0] == x && x != y
    ensures Before(names, x, y)
  {
    assert names[..0 + 1] == [x];
  }

  lemma BeforeLater(names: seq<string>, x: string, y: string)
    requires names != [] && names[0] != y && Before(names[1..], x, y)
    ensures Before(names, x, y)
  {
    var a :| 0 <= a < |names[1..]| && names[1..][a] == x && y !in names[1..][..a + 1];
    assert names[..a + 1 + 1] == [names[0]] + names[1..][..a + 1];
    assert names[a + 1] == x;
  }

  /** The pushes, on names already trimmed. */
  function AddAll(out: seq<string>, names: seq<string>): seq<string>
    decreases |names|
  {
    if names == [] then out
    else AddAll(if names[0] == "" || names[0] in out then out else out + [names[0]], names[1..])
  }

  lemma {:induction false} PushesTrimmed(out: seq<string>, names: seq<string>)
    ensures PushAll(out, names) == AddAll(out, Trimmed(names))
    decreases |names|
  {
    if names != [] {
      PushesTrimmed(Push(out, names[0]), names[1..]);
      TrimmedTail(names);
    }
  }

  lemma TrimmedTail(names: seq<string>)
    requires names != []
    ensures Trimmed(names)[1..] == Trimmed(names[1..])
  {
    assert forall i :: 0 <= i < |names| - 1 ==> Trimmed(names)[1..][i] == Trimmed(names[1..])[i];
  }

  lemma {:induction false} AddAllIs(out: seq<string>, names: seq<string>)
    requires NoDuplicates(out) && "" !in out
    ensures out <= AddAll(out, names) && NoDuplicates(AddAll(out, names)) && "" !in AddAll(out, names)
    decreases |names|
  {
    if names != [] {
      AddAllIs(if names[0] == "" || names[0] in out then out else out + [names[0]], names[1..]);
    }
  }

  lemma {:induction false} AddAllOrder(out: seq<string>, names: seq<string>, i: nat, j: nat)
    requires NoDuplicates(out) && "" !in out
    requires |out| <= i < j < |AddAll(out, names)|
    ensures Before(names, AddAll(out, names)[i], AddAll(out, names)[j])
    decreases |names|
  {
    var r := AddAll(out, names);
    var next := if names[0] == "" || names[0] in out then out else out + [names[0]];
    AddAllIs(next, names[1..]);
    FirstStep(names, out, next, r, i, j);
    if i >= |next| {
      AddAllOrder(next, names[1..], i, j);
      BeforeLater(names, r[i], r[j]);
    }
  }

  lemma LaterIsNew(out: seq<string>, r: seq<string>, j: nat)
    requires out <= r && NoDuplicates(r) && "" !in r && |out| <= j < |r|
    ensures r[j] !in out && r[j] != ""
  {
    assert r[j] in r;
  }

  lemma FirstStep(names: seq<string>, out: seq<string>, next: seq<string>, r: seq<string>, i: nat, j: nat)
    requires names != [] && next == if names[0] == "" || names[0] in out then out else out + [names[0]]
    requires next <= r && NoDuplicates(r) && "" !in r && |out| <= i < j < |r|
    ensures names[0] != r[j]
    ensures i < |next| ==> Before(names, r[i], r[j])
  {
    LaterIsNew(next, r, j);
    if i < |next| {
      BeforeNow(names, r[i], r[j]);
    }
  }

  /** The order of the probe list is that of the name and the aliases, trimmed: of
      two names in it, the first one is mentioned before the other is at all. */
  lemma ProbeOrder(c: Component, i: nat, j: nat)
    requires i < j < |ProbeNames(c)|
    ensures Before(Trimmed([c.name] + c.aliases), ProbeNames(c)[i], ProbeNames(c)[j])
  {
    var all := [c.name] + c.aliases;
    assert all[1..] == c.aliases;
    PushesTrimmed([], all);
    AddAllOrder([], Trimmed(all), i, j);
  }

  // ----- ClusterServiceVersions --------------------------------------------

  /** A CSV of this base: it has the base's name, or that with a version. */
  ghost predicate OfBase(csv: Csv, base: string) {
    csv.name == base || exists version: string :: csv.name == base + "." + version
  }

  /** The CSV is the operator of the component of this name by the `k`th base. */
  ghost predicate Fits(csv: Csv, n: string, k: nat) {
    || (k == 0 && OfBase(csv, n))
    || (k == 1 && OfBase(csv, n + "-operator"))
    || (k == 2 && n == "nvidia-device-plugin" && OfBase(csv, "gpu-operator-certified"))
    || (k == 3 && n == "nvidia-device-plugin" && OfBase(csv, "gpu-operator"))
    || (k == 2 && n == "kserve" && OfBase(csv, "kserve-operator"))
    || (k == 2 && n == "prometheus" && OfBase(csv, "prometheusoperator"))
    || (k == 3 && n == "prometheus" && OfBase(csv, "prometheus-operator"))
  }

  lemma NamesIs(base: string, csv: Csv)
    ensures Names(base, csv) <==> OfBase(csv, base)
  {
    if base + "." <= csv.name {
      assert csv.name == base + "." + csv.name[|base| + 1..];
    }
  }

  lemma FitsIs(csv: Csv, n: string, k: nat)
    ensures Fits(csv, n, k) <==> k < |Candidates(n)| && Names(Candidates(n)[k], csv)
  {
    if k < |Candidates(n)| {
      NamesIs(Candidates(n)[k], csv);
    }
  }

  /** Some probe name has a CSV. */
  ghost predicate OlmLists(p: seq<string>, csvs: seq<Csv>) {
    exists i, k: nat, j :: 0 <= i < |p| && 0 <= j < |csvs| && Fits(csvs[j], p[i], k)
  }

  predicate Earlier(i: int, k: int, j: int, i': int, k': int, j': int) {
    i < i' || (i == i' && (k < k' || (k == k' && j < j')))
  }

  /** The first such CSV: by probe name, then by base, then by listing order. */
  ghost predicate OlmFinds(p: seq<string>, csvs: seq<Csv>, csv: Csv) {
    exists i, k: nat, j :: 0 <= i < |p| && 0 <= j < |csvs| && csv == csvs[j] && Fits(csvs[j], p[i], k)
                           && NoneEarlier(p, csvs, i, k, j)
  }

  ghost predicate NoneEarlier(p: seq<string>, csvs: seq<Csv>, i: int, k: int, j: int) {
    forall i', k': nat, j' :: 0 <= i' < |p| && 0 <= j' < |csvs| && Fits(csvs[j'], p[i'], k') ==> !Earlier(i', k', j', i, k, j)
  }

  ghost predicate SomeNamed(bases: seq<string>, csvs: seq<Csv>, k: int) {
    0 <= k < |bases| && exists j :: 0 <= j < |csvs| && Names(bases[k], csvs[j])
  }

  lemma {:induction false} FirstOfIs(bases: seq<string>, csvs: seq<Csv>)
    ensures match FirstOf(bases, csvs)
            case None => forall k :: !SomeNamed(bases, csvs, k)
            case Some(c) => exists k :: SomeNamed(bases, csvs, k) && FirstNamed(bases[k], csvs) == Some(c)
                                        && forall k' :: k' < k ==> !SomeNamed(bases, csvs, k')
  {
    if bases != [] {
      FirstNamedIs(bases[0], csvs);
      assert FirstNamed(bases[0], csvs).Some? <==> SomeNamed(bases, csvs, 0);
      if FirstNamed(bases[0], csvs).None? {
        FirstOfIs(bases[1..], csvs);
        Shifted(bases, csvs);
        if FirstOf(bases, csvs).Some? {
          var k :| SomeNamed(bases[1..], csvs, k) && FirstNamed(bases[1..][k], csvs) == FirstOf(bases, csvs)
                   && forall k' :: k' < k ==> !SomeNamed(bases[1..], csvs, k');
          assert SomeNamed(bases, csvs, k + 1);
        }
      }
    }
  }

  lemma Shifted(bases: seq<string>, csvs: seq<Csv>)
    requires bases != []
    ensures forall k :: k != 0 ==> (SomeNamed(bases, csvs, k) <==> SomeNamed(bases[1..], csvs, k - 1))
  {
    assert forall k :: 0 < k < |bases| ==> bases[k] == bases[1..][k - 1];
  }

  /** For one name: the first CSV by base and listing order. */
  lemma NameFinds(n: string, csvs: seq<Csv>) returns (k: nat, j: nat)
    requires MatchCSV(n, csvs).Some?
    ensures j < |csvs| && MatchCSV(n, csvs) == Some(csvs[j]) && Fits(csvs[j], n, k)
    ensures forall k': nat, j' :: 0 <= j' < |csvs| && Fits(csvs[j'], n, k') ==> k < k' || (k == k' && j <= j')
  {
    var bases := Candidates(n);
    FirstOfIs(bases, csvs);
    k :| SomeNamed(bases, csvs, k) && FirstNamed(bases[k], csvs) == MatchCSV(n, csvs)
         && forall k' :: k' < k ==> !SomeNamed(bases, csvs, k');
    FirstNamedIs(bases[k], csvs);
    var c := MatchCSV(n, csvs).value;
    j :| 0 <= j < |csvs| && csvs[j] == c && Names(bases[k], c) && forall j' :: 0 <= j' < j ==> !Names(bases[k], csvs[j']);
    FitsIs(csvs[j], n, k);
    forall k': nat, j' | 0 <= j' < |csvs| && Fits(csvs[j'], n, k')
      ensures k < k' || (k == k' && j <= j')
    {
      FitsIs(csvs[j'], n, k');
      assert SomeNamed(bases, csvs, k');
    }
  }

  /** Whether one name has a CSV. */
  ghost predicate NameLists(n: string, csvs: seq<Csv>) {
    exists k: nat, j :: 0 <= j < |csvs| && Fits(csvs[j], n, k)
  }

  lemma NameListsIs(n: string, csvs: seq<Csv>)
    ensures MatchCSV(n, csvs).Some? <==> NameLists(n, csvs)
  {
    if MatchCSV(n, csvs).Some? {
      var k, j := NameFinds(n, csvs);
    } else if NameLists(n, csvs) {
      var k: nat, j :| 0 <= j < |csvs| && Fits(csvs[j], n, k);
      FitsIs(csvs[j], n, k);
      FirstOfIs(Candidates(n), csvs);
      assert SomeNamed(Candidates(n), csvs, k);
    }
  }

  lemma OlmIs(p: seq<string>, s: Snapshot)
    ensures var i := FirstFrom(p, Csvs, s, 0);
            if i < 0 then !OlmLists(p, s.csvs)
            else OlmLists(p, s.csvs) && OlmFinds(p, s.csvs, MatchCSV(p[i], s.csvs).value)
  {
    var i := FirstFrom(p, Csvs, s, 0);
    forall x | 0 <= x < |p|
      ensures Has(Csvs, s, p[x]) <==> NameLists(p[x], s.csvs)
    {
      NameListsIs(p[x], s.csvs);
    }
    if i >= 0 {
      var k, j := NameFinds(p[i], s.csvs);
      assert NoneEarlier(p, s.csvs, i, k, j);
    }
  }

  // ----- Helm releases -----------------------------------------------------

  /** The scan's releases of each chart are those listed, in order: a release is
      knaic's own by its name or its label. */
  lemma {:induction false} ReleasesAre(before: seq<Release>, r: Release, after: seq<Release>, chart: string)
    ensures HitsOf(before + [r] + after, chart)
            == HitsOf(before, chart)
               + (if r.chart == Some(chart) then [Hit(r.name, r.namespace_, "knaic-" <= r.name || r.labelled)] else [])
               + HitsOf(after, chart)
    ensures HitsOf([], chart) == []
    decreases |after|
  {
    var all := before + [r] + after;
    if after == [] {
      assert all == before + [r] && all[..|all| - 1] == before;
    } else {
      var front := after[..|after| - 1];
      assert all[..|all| - 1] == before + [r] + front;
      ReleasesAre(before, r, front, chart);
    }
  }

  predicate Listed(s: Snapshot, n: string, j: int) {
    n in s.releasesByChart && 0 <= j < |s.releasesByChart[n]|
  }

  predicate ListedOurs(s: Snapshot, n: string, j: int) {
    Listed(s, n, j) && s.releasesByChart[n][j].ours
  }

  /** Some probe name is the chart of a release of knaic's own. */
  ghost predicate KnaicLists(p: seq<string>, s: Snapshot) {
    exists i, j :: 0 <= i < |p| && ListedOurs(s, p[i], j)
  }

  /** The first such release: by probe name, then by listing order. */
  ghost predicate KnaicFinds(p: seq<string>, s: Snapshot, h: Hit) {
    exists i, j :: 0 <= i < |p| && ListedOurs(s, p[i], j) && s.releasesByChart[p[i]][j] == h
                   && forall i', j' :: 0 <= i' < |p| && ListedOurs(s, p[i'], j') ==> i < i' || (i == i' && j <= j')
  }

  /** Some probe name is the chart of any release. */
  ghost predicate HelmLists(p: seq<string>, s: Snapshot) {
    exists i :: 0 <= i < |p| && Listed(s, p[i], 0)
  }

  /** The first release of the earliest such probe name. */
  ghost predicate HelmFinds(p: seq<string>, s: Snapshot, h: Hit) {
    exists i :: 0 <= i < |p| && Listed(s, p[i], 0) && s.releasesByChart[p[i]][0] == h
                && forall i' :: 0 <= i' < i ==> !Listed(s, p[i'], 0)
  }

  lemma {:induction false} FirstOwnedAt(hits: seq<Hit>) returns (j: nat)
    requires FirstOwned(hits).Some?
    ensures j < |hits| && hits[j].ours && FirstOwned(hits).value == hits[j]
    ensures forall j' :: 0 <= j' < j ==> !hits[j'].ours
  {
    if hits[0].ours {
      j := 0;
    } else {
      j := FirstOwnedAt(hits[1..]);
      j := j + 1;
      assert forall j' :: 0 < j' < |hits| ==> hits[j'] == hits[1..][j' - 1];
    }
  }

  lemma OwnedIs(s: Snapshot, n: string)
    ensures Has(KnaicReleases, s, n) <==> exists j :: ListedOurs(s, n, j)
    ensures Has(AnyRelease, s, n) <==> Listed(s, n, 0)
  {
    FirstOwnedIs(Hits(s, n));
    if Has(KnaicReleases, s, n) {
      var j := FirstOwnedAt(Hits(s, n));
      assert ListedOurs(s, n, j);
    }
    forall j | ListedOurs(s, n, j)
      ensures s.releasesByChart[n][j] in Hits(s, n)
    {
    }
  }

  lemma KnaicIs(p: seq<string>, s: Snapshot)
    ensures var i := FirstFrom(p, KnaicReleases, s, 0);
            if i < 0 then !KnaicLists(p, s)
            else KnaicLists(p, s) && KnaicFinds(p, s, FirstOwned(Hits(s, p[i])).value)
  {
    var i := FirstFrom(p, KnaicReleases, s, 0);
    forall x | 0 <= x < |p|
      ensures Has(KnaicReleases, s, p[x]) <==> exists j :: ListedOurs(s, p[x], j)
    {
      OwnedIs(s, p[x]);
    }
    if i >= 0 {
      var j := FirstOwnedAt(Hits(s, p[i]));
      assert ListedOurs(s, p[i], j);
    }
  }

  lemma HelmIs(p: seq<string>, s: Snapshot)
    ensures var i := FirstFrom(p, AnyRelease, s, 0);
            if i < 0 then !HelmLists(p, s) else HelmLists(p, s) && HelmFinds(p, s, Hits(s, p[i])[0])
  {
    forall x | 0 <= x < |p|
      ensures Has(AnyRelease, s, p[x]) <==> Listed(s, p[x], 0)
    {
      OwnedIs(s, p[x]);
    }
  }

  // ----- the entry ---------------------------------------------------------

  /** What a detection that goes through makes of the entry `c`. */
  ghost predicate Detected(c: Component, p: seq<string>, s: Snapshot, systemNamespace: string, d: Component) {
    if OlmLists(p, s.csvs) then
      exists csv :: OlmFinds(p, s.csvs, csv)
        && d == c.(status := Installed, namespace_ := csv.namespace_, managedBy := OLM,
                   notes := "Detected via OLM ClusterServiceVersion " + ("\"" + csv.name + "\"")
                            + " in " + ("\"" + csv.namespace_ + "\"") + ".")
    else if KnaicLists(p, s) then
      exists h :: KnaicFinds(p, s, h)
        && d == c.(status := Installed, namespace_ := h.namespace_, managedBy := Knaic, notes := "")
    else if HelmLists(p, s) then
      exists h :: HelmFinds(p, s, h)
        && d == c.(status := Installed, namespace_ := h.namespace_, managedBy := Manual,
                   notes := "Helm release " + ("\"" + h.name + "\"")
                            + " in " + ("\"" + h.namespace_ + "\"") + " (not installed by knaic).")
    else
      d == c.(status := NotInstalled, managedBy := Nobody, notes := "",
              namespace_ := if systemNamespace != "" then systemNamespace else c.namespace_)
  }

  lemma VerdictIs(c: Component, s: Snapshot)
    ensures var v, p := Resolve(c, s), ProbeNames(c);
            if OlmLists(p, s.csvs) then v.ByOLM? && OlmFinds(p, s.csvs, v.csv)
            else if KnaicLists(p, s) then v.ByKnaic? && exists h :: KnaicFinds(p, s, h) && v == ByKnaic(h.namespace_)
            else if HelmLists(p, s) then v.ByOther? && HelmFinds(p, s, v.hit) && !v.hit.ours
            else v.Absent?
  {
    var p := ProbeNames(c);
    OlmIs(p, s);
    if OlmLists(p, s.csvs) {
      return;
    }
    KnaicIs(p, s);
    if KnaicLists(p, s) {
      var h := FirstOwned(Hits(s, p[FirstFrom(p, KnaicReleases, s, 0)])).value;
      assert KnaicFinds(p, s, h) && Resolve(c, s) == ByKnaic(h.namespace_);
      return;
    }
    HelmIs(p, s);
    OthersAreNotOurs(c, s);
  }

  lemma SettledIs(c: Component, s: Snapshot, systemNamespace: string)
    ensures var v := Resolve(c, s);
            Detected(c, ProbeNames(c), s, systemNamespace, Settled(c, v, systemNamespace, NoteOf(v)))
  {
    VerdictIs(c, s);
    SettledDetected(c, ProbeNames(c), s, systemNamespace, Resolve(c, s));
  }

  lemma SettledDetected(c: Component, p: seq<string>, s: Snapshot, systemNamespace: string, v: Verdict)
    requires if OlmLists(p, s.csvs) then v.ByOLM? && OlmFinds(p, s.csvs, v.csv)
             else if KnaicLists(p, s) then v.ByKnaic? && exists h :: KnaicFinds(p, s, h) && v == ByKnaic(h.namespace_)
             else if HelmLists(p, s) then v.ByOther? && HelmFinds(p, s, v.hit) && !v.hit.ours
             else v.Absent?
    ensures Detected(c, p, s, systemNamespace, Settled(c, v, systemNamespace, NoteOf(v)))
  {
  }

  /** A detection answers for known components only. It looks at the cached scan
      until that expires, leaves alone what is being installed or removed, and
      otherwise writes into the one entry. */
  lemma DetectFrame(s: State, name: string, expired: bool, scan: Snapshot)
    ensures var (t, ok) := DetectComponent(s, name, expired, scan);
            && (ok <==> name in s.items)
            && (!ok ==> t == s)
            && t.systemNamespace == s.systemNamespace && t.items.Keys == s.items.Keys
            && (forall n :: n in s.items && n != name ==> t.items[n] == s.items[n])
            && (ok ==> t.cache == Some(if s.cache.None? || expired then scan else s.cache.value))
            && (ok && s.items[name].status.Installing? ==> t.items[name] == s.items[name] && t.log == s.log)
  {
    assert DetectComponent(s, name, expired, scan).0.items.Keys == s.items.Keys;
  }

  lemma DetectWrites(s: State, name: string, expired: bool, scan: Snapshot)
    requires name in s.items && !s.items[name].status.Installing?
    ensures var t := DetectComponent(s, name, expired, scan).0;
            var snap := if s.cache.None? || expired then scan else s.cache.value;
            var c := s.items[name];
            var v := Resolve(c, snap);
            name in t.items && t.items[name] == Settled(c, v, s.systemNamespace, NoteOf(v))
  {
  }

  /** And what it writes is what the scan shows. */
  lemma DetectFinds(s: State, name: string, expired: bool, scan: Snapshot)
    requires name in s.items && !s.items[name].status.Installing?
    ensures var t := DetectComponent(s, name, expired, scan).0;
            var c := s.items[name];
            name in t.items
            && Detected(c, ProbeNames(c), if s.cache.None? || expired then scan else s.cache.value, s.systemNamespace,
                        t.items[name])
  {
    SettledIs(s.items[name], if s.cache.None? || expired then scan else s.cache.value, s.systemNamespace);
    DetectWrites(s, name, expired, scan);
  }
}
