/** Platform components: resolving their live state from one cluster scan, and
    the install, uninstall and reconcile operations over the store. */
module Components {
  import opened Text

  datatype Status = NotInstalled | Installing | Installed | Failed

  datatype Manager = Nobody | Knaic | OLM | Manual

  datatype Component = Component(name: string, displayName: string, description: string, category: string,
                                 aliases: seq<string>, versions: seq<string>, selectedVersion: string, images: seq<string>,
                                 status: Status, namespace_: string, managedBy: Manager, notes: string,
                                 builtin: bool, embedded: bool, lastError: string)

  datatype ImportRequest = ImportRequest(name: string, displayName: string, description: string, category: string,
                                         version: string, namespace_: string, images: seq<string>)

  // ----- the cluster scan --------------------------------------------------

  /** A Helm release; a release without chart metadata has no chart name. */
  datatype Release = Release(name: string, namespace_: string, chart: Option<string>, labelled: bool)

  /** A release as detection sees it: knaic's own, or somebody else's. */
  datatype Hit = Hit(name: string, namespace_: string, ours: bool) {
    function Owner(): Manager { if ours then Knaic else Manual }
  }

  datatype Csv = Csv(name: string, namespace_: string)

  /** What a scan holds; a listing that failed leaves its part empty. */
  datatype Snapshot = Snapshot(releasesByChart: map<string, seq<Hit>>, csvs: seq<Csv>)

  function HitOf(r: Release): Hit {
    Hit(r.name, r.namespace_, "knaic-" <= r.name || r.labelled)
  }

  /** The releases of one chart, in listing order. */
  function HitsOf(releases: seq<Release>, chart: string): seq<Hit> {
    if releases == [] then []
    else
      var front, last := releases[..|releases| - 1], releases[|releases| - 1];
      HitsOf(front, chart) + (if last.chart == Some(chart) then [HitOf(last)] else [])
  }

  function Hits(s: Snapshot, chart: string): seq<Hit> {
    if chart in s.releasesByChart then s.releasesByChart[chart] else []
  }

  method ScanCluster(releases: Result<seq<Release>>, csvs: Result<seq<Csv>>) returns (s: Snapshot)
    ensures s.csvs == if csvs.Ok? then csvs.value else []
    ensures forall chart :: Hits(s, chart) == if releases.Ok? then HitsOf(releases.value, chart) else []
  {
    var byChart: map<string, seq<Hit>> := map[];
    if releases.Ok? {
      var rs := releases.value;
      for i := 0 to |rs|
        invariant forall chart :: Hits(Snapshot(byChart, []), chart) == HitsOf(rs[..i], chart)
      {
        assert rs[..i + 1][..i] == rs[..i];
        if rs[i].chart.None? {
          continue;
        }
        var ch := rs[i].chart.value;
        byChart := byChart[ch := (if ch in byChart then byChart[ch] else []) + [HitOf(rs[i])]];
      }
      assert rs[..|rs|] == rs;
    }
    s := Snapshot(byChart, if csvs.Ok? then csvs.value else []);
  }

  // ----- names to probe ----------------------------------------------------

  function Push(out: seq<string>, s: string): seq<string> {
    var t := Trim(Unicode, s);
    if t == "" || t in out then out else out + [t]
  }

  function PushAll(out: seq<string>, names: seq<string>): seq<string>
    decreases |names|
  {
    if names == [] then out else PushAll(Push(out, names[0]), names[1..])
  }

  function ProbeNames(c: Component): seq<string> {
    PushAll(Push([], c.name), c.aliases)
  }

  method ComponentProbeNames(c: Component) returns (out: seq<string>)
    ensures out == ProbeNames(c)
  {
    out := [];
    var seen: set<string> := {};
    var t := Trim(Unicode, c.name);
    if t != "" {
      seen := seen + {t};
      out := out + [t];
    }
    for i := 0 to |c.aliases|
      invariant PushAll(out, c.aliases[i..]) == ProbeNames(c)
      invariant forall x :: x in seen <==> x in out
    {
      var a := Trim(Unicode, c.aliases[i]);
      if a == "" || a in seen {
        continue;
      }
      seen := seen + {a};
      out := out + [a];
    }
  }

  predicate NoDuplicates(names: seq<string>) {
    forall i, j :: 0 <= i < j < |names| ==> names[i] != names[j]
  }

  /** `x` is one of the names, trimmed. */
  predicate OneOf(names: seq<string>, x: string) {
    names != [] && (Trim(Unicode, names[0]) == x || OneOf(names[1..], x))
  }

  lemma {:induction false} PushAllIs(out: seq<string>, names: seq<string>)
    requires NoDuplicates(out) && "" !in out
    ensures var r := PushAll(out, names);
            out <= r && NoDuplicates(r) && "" !in r
            && (forall x :: x in r <==> x in out || (x != "" && OneOf(names, x)))
    decreases |names|
  {
    if names != [] {
      PushIs(out, names[0]);
      PushAllIs(Push(out, names[0]), names[1..]);
    }
  }

  lemma PushIs(out: seq<string>, s: string)
    requires NoDuplicates(out) && "" !in out
    ensures var r := Push(out, s);
            out <= r && NoDuplicates(r) && "" !in r
            && (forall x :: x in r <==> x in out || (x != "" && Trim(Unicode, s) == x))
  {
  }

  /** The probe list: the trimmed name first, then the trimmed aliases, each
      once, none blank. */
  lemma ProbeNamesAre(c: Component)
    ensures var p := ProbeNames(c);
            NoDuplicates(p) && "" !in p
            && (Trim(Unicode, c.name) != "" ==> p != [] && p[0] == Trim(Unicode, c.name))
            && (forall x :: x in p <==> x != "" && (x == Trim(Unicode, c.name) || OneOf(c.aliases, x)))
  {
    PushIs([], c.name);
    PushAllIs(Push([], c.name), c.aliases);
  }

  // ----- OLM matches -------------------------------------------------------

  function Candidates(comp: string): seq<string> {
    [comp, comp + "-operator"]
    + (match comp
       case "nvidia-device-plugin" => ["gpu-operator-certified", "gpu-operator"]
       case "kserve" => ["kserve-operator"]
       case "prometheus" => ["prometheusoperator", "prometheus-operator"]
       case _ => [])
  }

  predicate Names(base: string, csv: Csv) {
    base + "." <= csv.name || csv.name == base
  }

  function FirstNamed(base: string, csvs: seq<Csv>): Option<Csv> {
    if csvs == [] then None
    else if Names(base, csvs[0]) then Some(csvs[0])
    else FirstNamed(base, csvs[1..])
  }

  function FirstOf(bases: seq<string>, csvs: seq<Csv>): Option<Csv> {
    if bases == [] then None
    else if FirstNamed(bases[0], csvs).Some? then FirstNamed(bases[0], csvs)
    else FirstOf(bases[1..], csvs)
  }

  function MatchCSV(comp: string, csvs: seq<Csv>): Option<Csv> {
    FirstOf(Candidates(comp), csvs)
  }

  method FindCSV(comp: string, csvs: seq<Csv>) returns (r: Option<Csv>)
    ensures r == MatchCSV(comp, csvs)
  {
    var bases := Candidates(comp);
    for i := 0 to |bases|
      invariant MatchCSV(comp, csvs) == FirstOf(bases[i..], csvs)
    {
      for j := 0 to |csvs|
        invariant FirstNamed(bases[i], csvs) == FirstNamed(bases[i], csvs[j..])
      {
        if Names(bases[i], csvs[j]) {
          return Some(csvs[j]);
        }
      }
      assert csvs[|csvs|..] == [];
    }
    r := None;
  }

  lemma {:induction false} FirstNamedIs(base: string, csvs: seq<Csv>)
    ensures match FirstNamed(base, csvs)
            case None => forall i :: 0 <= i < |csvs| ==> !Names(base, csvs[i])
            case Some(c) => exists i :: 0 <= i < |csvs| && csvs[i] == c && Names(base, c)
                                        && forall k :: 0 <= k < i ==> !Names(base, csvs[k])
  {
    if csvs != [] {
      FirstNamedIs(base, csvs[1..]);
      if Names(base, csvs[0]) {
        assert csvs[0] == FirstNamed(base, csvs).value;
      } else {
        match FirstNamed(base, csvs[1..]) {
          case None =>
            assert forall i :: 1 <= i < |csvs| ==> csvs[i] == csvs[1..][i - 1];
          case Some(c) =>
            var i :| 0 <= i < |csvs[1..]| && csvs[1..][i] == c && Names(base, c)
                     && forall k :: 0 <= k < i ==> !Names(base, csvs[1..][k]);
            assert csvs[i + 1] == c;
            assert forall k :: 1 <= k < i + 1 ==> csvs[k] == csvs[1..][k - 1];
        }
      }
    }
  }

  // ----- resolving one component -------------------------------------------

  datatype Verdict = ByOLM(csv: Csv) | ByKnaic(namespace_: string) | ByOther(hit: Hit) | Absent

  function FirstOwned(hits: seq<Hit>): Option<Hit> {
    if hits == [] then None else if hits[0].ours then Some(hits[0]) else FirstOwned(hits[1..])
  }

  /** What a probe name is looked up in. */
  datatype Source = Csvs | KnaicReleases | AnyRelease

  predicate Has(src: Source, s: Snapshot, n: string) {
    match src
    case Csvs => MatchCSV(n, s.csvs).Some?
    case KnaicReleases => FirstOwned(Hits(s, n)).Some?
    case AnyRelease => Hits(s, n) != []
  }

  /** The first probe name at or after `k` that the source has, or -1. */
  function FirstFrom(p: seq<string>, src: Source, s: Snapshot, k: nat): (i: int)
    requires k <= |p|
    ensures i < 0 ==> i == -1 && forall j :: k <= j < |p| ==> !Has(src, s, p[j])
    ensures i >= 0 ==> k <= i < |p| && Has(src, s, p[i]) && forall j :: k <= j < i ==> !Has(src, s, p[j])
    decreases |p| - k
  {
    if k == |p| then -1 else if Has(src, s, p[k]) then k else FirstFrom(p, src, s, k + 1)
  }

  function Resolve(c: Component, s: Snapshot): Verdict {
    var p := ProbeNames(c);
    var i := FirstFrom(p, Csvs, s, 0);
    var j := FirstFrom(p, KnaicReleases, s, 0);
    var k := FirstFrom(p, AnyRelease, s, 0);
    if i >= 0 then ByOLM(MatchCSV(p[i], s.csvs).value)
    else if j >= 0 then ByKnaic(FirstOwned(Hits(s, p[j])).value.namespace_)
    else if k >= 0 then ByOther(Hits(s, p[k])[0])
    else Absent
  }

  /** Name `n` is the earliest probe name the source has. */
  ghost predicate Earliest(p: seq<string>, src: Source, s: Snapshot, n: string) {
    exists i :: 0 <= i < |p| && p[i] == n && Has(src, s, n) && forall j :: 0 <= j < i ==> !Has(src, s, p[j])
  }

  ghost predicate Nowhere(p: seq<string>, src: Source, s: Snapshot) {
    forall n :: n in p ==> !Has(src, s, n)
  }

  /** The choice, stated as the documented precedence: OLM, then a knaic release,
      then any other release, then nothing; within a source the earliest probe
      name wins. */
  ghost predicate IsChoice(c: Component, s: Snapshot, v: Verdict) {
    var p := ProbeNames(c);
    match v
    case ByOLM(csv) => exists n :: Earliest(p, Csvs, s, n) && MatchCSV(n, s.csvs) == Some(csv)
    case ByKnaic(ns) => Nowhere(p, Csvs, s)
      && exists n :: Earliest(p, KnaicReleases, s, n) && FirstOwned(Hits(s, n)).value.namespace_ == ns
    case ByOther(h) => Nowhere(p, Csvs, s) && Nowhere(p, KnaicReleases, s) && !h.ours
      && exists n :: Earliest(p, AnyRelease, s, n) && Hits(s, n)[0] == h
    case Absent => Nowhere(p, Csvs, s) && Nowhere(p, AnyRelease, s)
  }

  lemma {:induction false} FirstOwnedIs(hits: seq<Hit>)
    ensures FirstOwned(hits).Some? <==> exists h :: h in hits && h.ours
    ensures FirstOwned(hits).Some? ==> FirstOwned(hits).value in hits && FirstOwned(hits).value.ours
  {
    if hits != [] {
      FirstOwnedIs(hits[1..]);
      assert hits == [hits[0]] + hits[1..];
    }
  }

  lemma FirstIsEarliest(p: seq<string>, src: Source, s: Snapshot)
    ensures var i := FirstFrom(p, src, s, 0);
            if i < 0 then Nowhere(p, src, s)
            else !Nowhere(p, src, s) && forall n :: Earliest(p, src, s, n) <==> n == p[i]
  {
    var i := FirstFrom(p, src, s, 0);
    if i >= 0 {
      assert p[i] in p;
      assert Earliest(p, src, s, p[i]);
    }
  }

  lemma ResolveMakesChoice(c: Component, s: Snapshot)
    ensures IsChoice(c, s, Resolve(c, s))
  {
    var p := ProbeNames(c);
    var i := FirstFrom(p, Csvs, s, 0);
    FirstIsEarliest(p, Csvs, s);
    if i >= 0 {
      assert Earliest(p, Csvs, s, p[i]);
      return;
    }
    var j := FirstFrom(p, KnaicReleases, s, 0);
    FirstIsEarliest(p, KnaicReleases, s);
    if j >= 0 {
      assert Earliest(p, KnaicReleases, s, p[j]);
      return;
    }
    var k := FirstFrom(p, AnyRelease, s, 0);
    FirstIsEarliest(p, AnyRelease, s);
    if k >= 0 {
      assert Earliest(p, AnyRelease, s, p[k]);
      NotOurs(p, s, k);
    }
  }

  lemma NotOurs(p: seq<string>, s: Snapshot, k: nat)
    requires k < |p| && Has(AnyRelease, s, p[k]) && Nowhere(p, KnaicReleases, s)
    ensures !Hits(s, p[k])[0].ours
  {
    FirstOwnedIs(Hits(s, p[k]));
    assert p[k] in p && !Has(KnaicReleases, s, p[k]);
  }

  lemma EarliestUnique(p: seq<string>, src: Source, s: Snapshot, a: string, b: string)
    requires Earliest(p, src, s, a) && Earliest(p, src, s, b)
    ensures a == b && !Nowhere(p, src, s)
  {
    var i :| 0 <= i < |p| && p[i] == a && Has(src, s, a) && forall j :: 0 <= j < i ==> !Has(src, s, p[j]);
    var k :| 0 <= k < |p| && p[k] == b && Has(src, s, b) && forall j :: 0 <= j < k ==> !Has(src, s, p[j]);
    assert !(i < k) && !(k < i);
    assert p[i] in p;
  }

  lemma KnaicIsAny(p: seq<string>, s: Snapshot)
    requires Nowhere(p, AnyRelease, s)
    ensures Nowhere(p, KnaicReleases, s)
  {
  }

  /** The documented precedence leaves no freedom. */
  lemma ChoiceIsUnique(c: Component, s: Snapshot, v: Verdict, w: Verdict)
    requires IsChoice(c, s, v) && IsChoice(c, s, w)
    ensures v == w
  {
    var p := ProbeNames(c);
    forall src, a, b | Earliest(p, src, s, a) && Earliest(p, src, s, b)
      ensures a == b && !Nowhere(p, src, s)
    {
      EarliestUnique(p, src, s, a, b);
    }
    if Nowhere(p, AnyRelease, s) {
      KnaicIsAny(p, s);
    }
  }

  /** The three passes make the documented choice, and it is the only one. */
  lemma ResolveIsChoice(c: Component, s: Snapshot, v: Verdict)
    ensures IsChoice(c, s, v) <==> v == Resolve(c, s)
  {
    ResolveMakesChoice(c, s);
    if IsChoice(c, s, v) {
      ChoiceIsUnique(c, s, v, Resolve(c, s));
    }
  }

  // ----- the store and its operations --------------------------------------

  /** What the operations did to the cluster or saw there, in order. */
  datatype Event = HelmInstalled(name: string) | HelmUninstall(name: string) | SeenKnaic(name: string)

  datatype State = State(items: map<string, Component>, systemNamespace: string,
                         cache: Option<Snapshot>, log: seq<Event>)

  datatype Op =
    | Install(name: string, helm: Result<string>)
    | Uninstall(name: string, helm: Result<string>)
    | Reconcile(name: string, helm: Result<string>)
    | Import(req: ImportRequest)
    | Remove(name: string)
    | PatchVersion(name: string, version: string)
    | Detect(name: string, expired: bool, scan: Snapshot)

  /** The entry after detection has settled on a verdict. */
  function Settled(c: Component, v: Verdict, systemNamespace: string, note: string): Component {
    match v
    case ByOLM(csv) => c.(status := Installed, namespace_ := csv.namespace_, managedBy := OLM, notes := note)
    case ByKnaic(ns) => c.(status := Installed, namespace_ := ns, managedBy := Knaic, notes := "")
    case ByOther(h) => c.(status := Installed, namespace_ := h.namespace_, managedBy := h.Owner(), notes := note)
    case Absent => c.(status := NotInstalled, managedBy := Nobody, notes := "",
                      namespace_ := if systemNamespace != "" then systemNamespace else c.namespace_)
  }

  /** `%q` on a Kubernetes name, which holds nothing to escape. */
  function Quoted(s: string): string {
    "\"" + s + "\""
  }

  function NoteOf(v: Verdict): string {
    match v
    case ByOLM(csv) =>
      "Detected via OLM ClusterServiceVersion " + Quoted(csv.name) + " in " + Quoted(csv.namespace_) + "."
    case ByOther(h) => "Helm release " + Quoted(h.name) + " in " + Quoted(h.namespace_) + " (not installed by knaic)."
    case _ => ""
  }

  /** The three operations that call Helm. */
  datatype Action = Installs | Uninstalls | Reconciles

  /** The entry after Helm has answered. */
  function Closed(c: Component, act: Action, helm: Result<string>): Component {
    match helm
    case Err(e) => c.(status := Failed, lastError := e)
    case Ok(ns) =>
      match act
      case Installs => c.(status := Installed, namespace_ := ns, managedBy := Knaic, lastError := "")
      case Uninstalls => c.(status := NotInstalled, managedBy := Nobody, lastError := "")
      case Reconciles => c.(status := Installed, lastError := "")
  }

  /** Whether an operation goes ahead on the entry it reads first. */
  predicate Allows(act: Action, c: Component) {
    match act
    case Installs => !c.status.Installed? && c.embedded
    case Uninstalls => c.status.Installed? && c.managedBy.Knaic?
    case Reconciles => c.status.Installed? && c.embedded
  }

  /** What calling Helm adds to the record. */
  function Called(log: seq<Event>, act: Action, name: string, helm: Result<string>): seq<Event> {
    match act
    case Installs => if helm.Ok? then log + [HelmInstalled(name)] else log
    case Uninstalls => log + [HelmUninstall(name)]
    case Reconciles => log
  }

  /** A successful installation or removal invalidates the cached scan. */
  predicate Invalidates(act: Action, helm: Result<string>) {
    !act.Reconciles? && helm.Ok?
  }

  function Perform(s: State, act: Action, name: string, helm: Result<string>): (State, bool) {
    if name !in s.items || !Allows(act, s.items[name]) then (s, false)
    else (s.(items := s.items[name := Closed(s.items[name], act, helm)],
             cache := if Invalidates(act, helm) then None else s.cache,
             log := Called(s.log, act, name, helm)), true)
  }

  function ImportComponent(s: State, q: ImportRequest): (State, bool) {
    if q.name == "" || q.version == "" || q.name in s.items then (s, false)
    else (s.(items := s.items[q.name := Imported(q, s.systemNamespace)]), true)
  }

  function Imported(q: ImportRequest, systemNamespace: string): Component {
    Component(q.name, if q.displayName == "" then q.name else q.displayName, q.description,
              if q.category == "" then "Inference" else q.category, [], [q.version], q.version, q.images, NotInstalled,
              if q.namespace_ == "" then systemNamespace else q.namespace_, Nobody, "", false, false, "")
  }

  function RemoveComponent(s: State, name: string): (State, bool) {
    if name !in s.items || s.items[name].builtin then (s, false)
    else (s.(items := s.items - {name}), true)
  }

  function PatchComponent(s: State, name: string, version: string): (State, bool) {
    if name !in s.items then (s, false)
    else
      var c := s.items[name];
      (s.(items := s.items[name := if version in c.versions then c.(selectedVersion := version) else c]), true)
  }

  function DetectComponent(s: State, name: string, expired: bool, scan: Snapshot): (State, bool) {
    if name !in s.items then (s, false)
    else
      var c := s.items[name];
      var snap := if s.cache.Some? && !expired then s.cache.value else scan;
      var t := s.(cache := Some(snap));
      if c.status.Installing? then (t, true)
      else
        var v := Resolve(c, snap);
        (t.(items := s.items[name := Settled(c, v, s.systemNamespace, NoteOf(v))],
            log := if v.ByKnaic? then s.log + [SeenKnaic(name)] else s.log), true)
  }

  function Apply(s: State, op: Op): (State, bool) {
    match op
    case Install(name, helm) => Perform(s, Installs, name, helm)
    case Uninstall(name, helm) => Perform(s, Uninstalls, name, helm)
    case Reconcile(name, helm) => Perform(s, Reconciles, name, helm)
    case Import(q) => ImportComponent(s, q)
    case Remove(name) => RemoveComponent(s, name)
    case PatchVersion(name, version) => PatchComponent(s, name, version)
    case Detect(name, expired, scan) => DetectComponent(s, name, expired, scan)
  }

  function Run(s: State, ops: seq<Op>): State
    decreases |ops|
  {
    if ops == [] then s else Run(Apply(s, ops[0]).0, ops[1..])
  }

  /** A freshly loaded catalogue: nothing installed, nothing managed. */
  predicate Fresh(s: State) {
    s.cache.None? && s.log == []
    && forall n :: n in s.items ==> s.items[n].status.NotInstalled? && s.items[n].managedBy.Nobody?
  }

  /** Knaic put this component there, or saw its own release of it. */
  ghost predicate Ours(log: seq<Event>, name: string) {
    HelmInstalled(name) in log || SeenKnaic(name) in log
  }

  ghost predicate Earned(log: seq<Event>) {
    forall i :: 0 <= i < |log| && log[i].HelmUninstall? ==> Ours(log[..i], log[i].name)
  }

  predicate Coherent(c: Component) {
    && !c.status.Installing?
    && (c.status.NotInstalled? ==> c.managedBy.Nobody?)
    && (c.status.Installed? ==> !c.managedBy.Nobody?)
  }

  ghost predicate Inv(s: State) {
    && (forall n :: n in s.items ==> Coherent(s.items[n]) && (s.items[n].managedBy.Knaic? ==> Ours(s.log, n)))
    && Earned(s.log)
  }

  lemma LogGrows(log: seq<Event>, e: Event)
    requires Earned(log)
    requires e.HelmUninstall? ==> Ours(log, e.name)
    ensures Earned(log + [e])
    ensures forall n :: Ours(log, n) ==> Ours(log + [e], n)
    ensures !e.HelmUninstall? ==> Ours(log + [e], e.name)
  {
    var l := log + [e];
    forall i | 0 <= i < |l| && l[i].HelmUninstall?
      ensures Ours(l[..i], l[i].name)
    {
      assert l[..i] == if i < |log| then log[..i] else log;
    }
    assert l[|log|] == e;
  }

  lemma ApplyKeepsInv(s: State, op: Op)
    requires Inv(s)
    ensures Inv(Apply(s, op).0)
  {
    match op {
      case Install(name, helm) => LogGrows(s.log, HelmInstalled(name));
      case Uninstall(name, helm) => UninstallKeepsInv(s, name, helm);
      case Detect(name, expired, scan) => DetectKeepsInv(s, name, expired, scan);
      case _ =>
    }
  }

  lemma UninstallKeepsInv(s: State, name: string, helm: Result<string>)
    requires Inv(s)
    ensures Inv(Perform(s, Uninstalls, name, helm).0)
  {
    if name in s.items && s.items[name].managedBy.Knaic? {
      LogGrows(s.log, HelmUninstall(name));
    }
  }

  lemma DetectKeepsInv(s: State, name: string, expired: bool, scan: Snapshot)
    requires Inv(s)
    ensures Inv(DetectComponent(s, name, expired, scan).0)
  {
    if name in s.items {
      var snap := if s.cache.Some? && !expired then s.cache.value else scan;
      OthersAreNotOurs(s.items[name], snap);
      SettledKeepsInv(s, name, Resolve(s.items[name], snap), snap);
    }
  }

  lemma SettledKeepsInv(s: State, name: string, v: Verdict, snap: Snapshot)
    requires Inv(s) && name in s.items
    requires v.ByOther? ==> !v.hit.ours
    ensures Inv(s.(cache := Some(snap), items := s.items[name := Settled(s.items[name], v, s.systemNamespace, NoteOf(v))],
                   log := if v.ByKnaic? then s.log + [SeenKnaic(name)] else s.log))
  {
    LogGrows(s.log, SeenKnaic(name));
  }

  /** A release that detection attributes to others is not a knaic one. */
  lemma OthersAreNotOurs(c: Component, s: Snapshot)
    ensures var v := Resolve(c, s); v.ByOther? ==> !v.hit.ours
  {
    ResolveIsChoice(c, s, Resolve(c, s));
  }

  lemma {:induction false} RunKeepsInv(s: State, ops: seq<Op>)
    requires Inv(s)
    ensures Inv(Run(s, ops))
    decreases |ops|
  {
    if ops != [] {
      ApplyKeepsInv(s, ops[0]);
      RunKeepsInv(Apply(s, ops[0]).0, ops[1..]);
    }
  }

  /** Over any sequential history from a fresh catalogue: at rest nothing is
      mid-installation, a component has a manager when installed and none when
      not, and Helm only ever uninstalled what knaic installed or recognised. */
  lemma LifecycleHolds(s: State, ops: seq<Op>)
    requires Fresh(s)
    ensures var t := Run(s, ops);
            (forall n :: n in t.items ==> Coherent(t.items[n])) && Earned(t.log)
  {
    RunKeepsInv(s, ops);
  }

  /** After a successful install or uninstall the next detection answers from
      its own scan, whatever was cached. */
  lemma ActionsAreSeen(s: State, op: Op, expired: bool, scan: Snapshot)
    requires (op.Install? && op.helm.Ok?) || (op.Uninstall? && op.helm.Ok?)
    requires Apply(s, op).1
    ensures var t := Apply(s, op).0;
            var u := DetectComponent(t, op.name, expired, scan).0;
            op.name in t.items && op.name in u.items
            && u.items[op.name] == Settled(t.items[op.name], Resolve(t.items[op.name], scan), s.systemNamespace,
                                           NoteOf(Resolve(t.items[op.name], scan)))
  {
    var t := Apply(s, op).0;
    assert t.cache.None? && op.name in t.items && !t.items[op.name].status.Installing?
           && t.systemNamespace == s.systemNamespace;
    Uncached(t, op.name, expired, scan);
  }

  lemma Uncached(t: State, name: string, expired: bool, scan: Snapshot)
    requires t.cache.None? && name in t.items && !t.items[name].status.Installing?
    ensures var u := DetectComponent(t, name, expired, scan).0;
            var v := Resolve(t.items[name], scan);
            name in u.items && u.items[name] == Settled(t.items[name], v, t.systemNamespace, NoteOf(v))
  {
  }

  // ----- the operations on the live object ---------------------------------

  class Service {
    var items: map<string, Component>
    const systemNamespace: string
    var snap: Option<Snapshot>
    ghost var log: seq<Event>

    ghost function View(): State
      reads this
    {
      State(items, systemNamespace, snap, log)
    }

    constructor (catalog: map<string, Component>, ns: string)
      ensures View() == State(catalog, ns, None, [])
    {
      items, systemNamespace, snap, log := catalog, ns, None, [];
    }

    method Install(name: string, helm: Result<string>) returns (ok: bool)
      modifies this
      ensures (View(), ok) == Apply(old(View()), Op.Install(name, helm))
    {
      if name !in items {
        return false;
      }
      var c := items[name];
      if c.status.Installed? {
        return false;
      }
      if !c.embedded {
        return false;
      }
      items := items[name := items[name].(status := Installing)];
      match helm {
        case Err(e) =>
          items := items[name := items[name].(status := Failed, lastError := e)];
          assert items == old(items)[name := c.(status := Failed, lastError := e)];
          return true;
        case Ok(ns) =>
          log := log + [HelmInstalled(name)];
          snap := None;
          items := items[name := items[name].(status := Installed, namespace_ := ns, managedBy := Knaic, lastError := "")];
          assert items == old(items)[name := c.(status := Installed, namespace_ := ns, managedBy := Knaic, lastError := "")];
          return true;
      }
    }

    method Uninstall(name: string, helm: Result<string>) returns (ok: bool)
      modifies this
      ensures (View(), ok) == Apply(old(View()), Op.Uninstall(name, helm))
    {
      if name !in items {
        return false;
      }
      var c := items[name];
      if !c.status.Installed? {
        return false;
      }
      if !c.managedBy.Knaic? {
        return false;
      }
      items := items[name := items[name].(status := Installing)];
      log := log + [HelmUninstall(name)];
      match helm {
        case Err(e) =>
          items := items[name := items[name].(status := Failed, lastError := e)];
          assert items == old(items)[name := c.(status := Failed, lastError := e)];
          return true;
        case Ok(_) =>
          snap := None;
          items := items[name := items[name].(status := NotInstalled, managedBy := Nobody, lastError := "")];
          assert items == old(items)[name := c.(status := NotInstalled, managedBy := Nobody, lastError := "")];
          return true;
      }
    }

    method Reconcile(name: string, helm: Result<string>) returns (ok: bool)
      modifies this
      ensures (View(), ok) == Apply(old(View()), Op.Reconcile(name, helm))
    {
      if name !in items {
        return false;
      }
      var c := items[name];
      if !c.status.Installed? || !c.embedded {
        return false;
      }
      match helm {
        case Err(e) => items := items[name := items[name].(status := Failed, lastError := e)];
        case Ok(_) => items := items[name := items[name].(status := Installed, lastError := "")];
      }
      return true;
    }

    method Import(q: ImportRequest) returns (ok: bool)
      modifies this
      ensures (View(), ok) == Apply(old(View()), Op.Import(q))
    {
      if q.name == "" || q.version == "" {
        return false;
      }
      if q.name in items {
        return false;
      }
      var target := q.namespace_;
      if target == "" {
        target := systemNamespace;
      }
      var display := q.displayName;
      if display == "" {
        display := q.name;
      }
      var category := q.category;
      if category == "" {
        category := "Inference";
      }
      items := items[q.name := Component(q.name, display, q.description, category, [], [q.version], q.version, q.images,
                                         NotInstalled, target, Nobody, "", false, false, "")];
      return true;
    }

    method Remove(name: string) returns (ok: bool)
      modifies this
      ensures (View(), ok) == Apply(old(View()), Op.Remove(name))
    {
      if name !in items || items[name].builtin {
        return false;
      }
      items := items - {name};
      return true;
    }

    method PatchVersion(name: string, version: string) returns (ok: bool)
      modifies this
      ensures (View(), ok) == Apply(old(View()), Op.PatchVersion(name, version))
    {
      if name !in items {
        return false;
      }
      var c := items[name];
      for i := 0 to |c.versions|
        invariant version !in c.versions[..i]
        invariant View() == old(View())
      {
        if c.versions[i] == version {
          items := items[name := c.(selectedVersion := version)];
          return true;
        }
      }
      assert c.versions[..|c.versions|] == c.versions;
      assert items[name := c] == items;
      return true;
    }

    /** DetectOne: three passes over the probe names, most trusted source first. */
    method DetectOne(name: string, expired: bool, scan: Snapshot) returns (ok: bool)
      modifies this
      ensures (View(), ok) == Apply(old(View()), Op.Detect(name, expired, scan))
    {
      if name !in items {
        return false;
      }
      var c := items[name];
      if snap.None? || expired {
        snap := Some(scan);
      }
      var s := snap.value;
      if c.status.Installing? {
        return true;
      }
      var v := ThreePasses(c, s);
      if v.ByKnaic? {
        log := log + [SeenKnaic(name)];
      }
      items := items[name := Settled(items[name], v, systemNamespace, NoteOf(v))];
      return true;
    }
  }

  method ThreePasses(c: Component, s: Snapshot) returns (v: Verdict)
    ensures v == Resolve(c, s)
  {
    var probe := ComponentProbeNames(c);
    var csv := PassOLM(probe, s);
    if csv.Some? {
      return ByOLM(csv.value);
    }
    var own := PassKnaic(probe, s);
    if own.Some? {
      return ByKnaic(own.value.namespace_);
    }
    var any := PassAny(probe, s);
    return if any.Some? then ByOther(any.value) else Absent;
  }

  method PassOLM(probe: seq<string>, s: Snapshot) returns (r: Option<Csv>)
    ensures var i := FirstFrom(probe, Csvs, s, 0);
            r == if i < 0 then None else MatchCSV(probe[i], s.csvs)
  {
    for i := 0 to |probe|
      invariant FirstFrom(probe, Csvs, s, 0) == FirstFrom(probe, Csvs, s, i)
    {
      r := FindCSV(probe[i], s.csvs);
      if r.Some? {
        return;
      }
    }
    r := None;
  }

  method PassKnaic(probe: seq<string>, s: Snapshot) returns (r: Option<Hit>)
    ensures var i := FirstFrom(probe, KnaicReleases, s, 0);
            r == if i < 0 then None else FirstOwned(Hits(s, probe[i]))
  {
    for i := 0 to |probe|
      invariant FirstFrom(probe, KnaicReleases, s, 0) == FirstFrom(probe, KnaicReleases, s, i)
    {
      var hits := Hits(s, probe[i]);
      for j := 0 to |hits|
        invariant FirstOwned(hits) == FirstOwned(hits[j..])
      {
        if hits[j].ours {
          return Some(hits[j]);
        }
      }
    }
    r := None;
  }

  method PassAny(probe: seq<string>, s: Snapshot) returns (r: Option<Hit>)
    ensures var i := FirstFrom(probe, AnyRelease, s, 0);
            r == if i < 0 then None else Some(Hits(s, probe[i])[0])
  {
    for i := 0 to |probe|
      invariant FirstFrom(probe, AnyRelease, s, 0) == FirstFrom(probe, AnyRelease, s, i)
    {
      var hits := Hits(s, probe[i]);
      if |hits| > 0 {
        return Some(hits[0]);
      }
    }
    r := None;
  }
}
