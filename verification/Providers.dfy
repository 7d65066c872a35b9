/** The playground's provider registry, the model catalogue rendered from it,
    and the proxy that routes a catalogue key back to its provider. */
module Providers {
  import opened Text
  import Order
  import opened Decimal

  datatype Provider = Provider(id: string, name: string, source: string, namespace_: string, endpoint: string,
                               apiKey: string, model: string, description: string, status: string)

  datatype ProviderRequest = ProviderRequest(name: string, source: string, namespace_: string, endpoint: string,
                                             apiKey: string, model: string, description: string, status: string)

  datatype ProviderPatch = ProviderPatch(name: Option<string>, source: Option<string>, namespace_: Option<string>,
                                         endpoint: Option<string>, apiKey: Option<string>, model: Option<string>,
                                         description: Option<string>, status: Option<string>)

  datatype Registry = Registry(providers: map<string, Provider>, counter: nat)

  // ----- identities --------------------------------------------------------

  function Zeros(n: nat): string {
    if n == 0 then "" else "0" + Zeros(n - 1)
  }

  function Pad6(d: string): string {
    (if |d| < 6 then Zeros(6 - |d|) else "") + d
  }

  /** fmt.Sprintf("llm-%06d", n). */
  function IdOf(n: nat): string {
    "llm-" + Pad6(Dec(n))
  }

  lemma {:induction false} ZerosPad(k: nat, d: string)
    requires AllDigits(d)
    ensures AllDigits(Zeros(k) + d) && Val(Zeros(k) + d) == Val(d)
  {
    if k == 0 {
      assert Zeros(k) + d == d;
    } else {
      ZerosPad(k - 1, d);
      var t := Zeros(k - 1) + d;
      AppendAssoc("0", Zeros(k - 1), d);
      LeadingZero(t);
    }
  }

  lemma {:induction false} LeadingZero(t: string)
    requires AllDigits(t)
    ensures AllDigits("0" + t) && Val("0" + t) == Val(t)
  {
    if t == "" {
      assert "0" + t == "0";
      assert Val("0") == 10 * Val("") + 0 by { assert "0"[..0] == ""; }
    } else {
      var u := t[..|t| - 1];
      LeadingZero(u);
      assert ("0" + t)[..|"0" + t| - 1] == "0" + u;
    }
  }

  /** Identities are injective in the counter and hold no slash. */
  lemma IdValue(n: nat)
    ensures AllDigits(IdOf(n)[4..]) && Val(IdOf(n)[4..]) == n
    ensures '/' !in IdOf(n) && IdOf(n)[0] == 'l'
  {
    PadValue(Dec(n));
    ValDec(n);
    Prefixed(Pad6(Dec(n)));
  }

  lemma PadValue(d: string)
    requires AllDigits(d)
    ensures AllDigits(Pad6(d)) && Val(Pad6(d)) == Val(d)
  {
    ZerosPad(if |d| < 6 then 6 - |d| else 0, d);
    assert "" + d == d;
  }

  lemma Prefixed(d: string)
    requires AllDigits(d)
    ensures ("llm-" + d)[4..] == d && ("llm-" + d)[0] == 'l' && '/' !in "llm-" + d
  {
    var s := "llm-" + d;
    assert forall i :: 4 <= i < |s| ==> s[i] == d[i - 4] && IsDigit(d[i - 4]);
  }

  lemma IdInjective(m: nat, n: nat)
    requires IdOf(m) == IdOf(n)
    ensures m == n
  {
    IdValue(m);
    IdValue(n);
  }

  // ----- mutations ---------------------------------------------------------

  /** strings.TrimRight(s, "/"). */
  function TrimSlashes(s: string): string {
    if s != "" && s[|s| - 1] == '/' then TrimSlashes(s[..|s| - 1]) else s
  }

  datatype Op = Create(req: ProviderRequest) | Patch(id: string, patch: ProviderPatch) | Delete(id: string)

  function Or<T>(o: Option<T>, d: T): T {
    if o.Some? then o.value else d
  }

  function NewProvider(id: string, req: ProviderRequest): Provider {
    Provider(id, req.name, if req.source == "" then "external" else req.source, req.namespace_,
             TrimSlashes(req.endpoint), req.apiKey, req.model, req.description,
             if req.status == "" then "Ready" else req.status)
  }

  function Patched(p: Provider, patch: ProviderPatch): Provider {
    Provider(p.id, Or(patch.name, p.name), Or(patch.source, p.source),
             Or(patch.namespace_, p.namespace_),
             if patch.endpoint.Some? then TrimSlashes(patch.endpoint.value) else p.endpoint,
             Or(patch.apiKey, p.apiKey), Or(patch.model, p.model),
             Or(patch.description, p.description), Or(patch.status, p.status))
  }

  /** Whether an operation is accepted; only then does the registry change and
      are the subscribers notified. */
  predicate Accepted(valid: string -> bool, r: Registry, op: Op) {
    match op
    case Create(req) => req.name != "" && req.endpoint != "" && req.model != "" && valid(req.endpoint)
    case Patch(id, patch) => id in r.providers && (patch.endpoint.Some? ==> valid(patch.endpoint.value))
    case Delete(id) => id in r.providers
  }

  function Apply(valid: string -> bool, r: Registry, op: Op): Registry {
    if !Accepted(valid, r, op) then r
    else match op
      case Create(req) =>
        var id := IdOf(r.counter + 1);
        Registry(r.providers[id := NewProvider(id, req)], r.counter + 1)
      case Patch(id, patch) => r.(providers := r.providers[id := Patched(r.providers[id], patch)])
      case Delete(id) => r.(providers := r.providers - {id})
  }

  function Redact(p: Provider): Provider { p.(apiKey := "") }

  /** Every provider sits under its own identity, drawn from the counter. */
  ghost predicate WellKeyed(r: Registry) {
    forall id :: id in r.providers ==> r.providers[id].id == id && Issued(r.counter, id)
  }

  ghost predicate Issued(counter: nat, id: string) {
    exists n :: 1 <= n <= counter && id == IdOf(n)
  }

  lemma ApplyWellKeyed(valid: string -> bool, r: Registry, op: Op)
    requires WellKeyed(r)
    ensures WellKeyed(Apply(valid, r, op))
    ensures r.counter <= Apply(valid, r, op).counter
  {
    var r' := Apply(valid, r, op);
    forall id | id in r'.providers
      ensures r'.providers[id].id == id && Issued(r'.counter, id)
    {
      if id in r.providers {
        assert Issued(r.counter, id);
      } else {
        assert id == IdOf(r.counter + 1);
      }
    }
  }

  function Run(valid: string -> bool, r: Registry, ops: seq<Op>): Registry
    decreases |ops|
  {
    if ops == [] then r else Run(valid, Apply(valid, r, ops[0]), ops[1..])
  }

  /** The identities handed out along a run. */
  function Created(valid: string -> bool, r: Registry, ops: seq<Op>): seq<string>
    decreases |ops|
  {
    if ops == [] then []
    else (if ops[0].Create? && Accepted(valid, r, ops[0]) then [IdOf(r.counter + 1)] else [])
         + Created(valid, Apply(valid, r, ops[0]), ops[1..])
  }

  lemma {:induction false} CreatedAre(valid: string -> bool, r: Registry, ops: seq<Op>)
    ensures var c := Created(valid, r, ops);
            Run(valid, r, ops).counter == r.counter + |c|
            && Serials(r.counter + 1, c)
    decreases |ops|
  {
    if ops != [] {
      var made := ops[0].Create? && Accepted(valid, r, ops[0]);
      CounterStep(valid, r, ops[0]);
      CreatedAre(valid, Apply(valid, r, ops[0]), ops[1..]);
      SerialsCons(r.counter + 1, made, Created(valid, Apply(valid, r, ops[0]), ops[1..]));
    }
  }

  lemma CounterStep(valid: string -> bool, r: Registry, op: Op)
    ensures Apply(valid, r, op).counter == r.counter + if op.Create? && Accepted(valid, r, op) then 1 else 0
  {
  }

  lemma SerialsCons(n: nat, made: bool, ids: seq<string>)
    requires Serials(n + if made then 1 else 0, ids)
    ensures Serials(n, (if made then [IdOf(n)] else []) + ids)
  {
    if made {
      var r := [IdOf(n)] + ids;
      forall i | 0 <= i < |r|
        ensures r[i] == IdOf(n + i)
      {
        if i > 0 {
          assert r[i] == ids[i - 1] == IdOf((n + 1) + (i - 1));
        }
      }
    } else {
      assert [] + ids == ids;
    }
  }

  /** Over any run no identity is handed out twice, nor one that any provider
      bore before, even after deletions; and none holds a slash. */
  lemma IdsNeverReused(valid: string -> bool, r: Registry, ops: seq<Op>)
    requires WellKeyed(r)
    ensures var c := Created(valid, r, ops);
            (forall i, j :: 0 <= i < j < |c| ==> c[i] != c[j])
            && (forall i :: 0 <= i < |c| ==> c[i] !in r.providers && Slashless(c[i]))
  {
    CreatedAre(valid, r, ops);
    SerialsDistinct(r.counter + 1, Created(valid, r, ops));
    SerialsUnused(r, Created(valid, r, ops));
  }

  ghost predicate Serials(n: nat, ids: seq<string>) {
    forall i :: 0 <= i < |ids| ==> ids[i] == IdOf(n + i)
  }

  lemma SerialsDistinct(n: nat, ids: seq<string>)
    requires Serials(n, ids)
    ensures forall i, j :: 0 <= i < j < |ids| ==> ids[i] != ids[j]
  {
    forall i, j | 0 <= i < j < |ids|
      ensures ids[i] != ids[j]
    {
      assert ids[i] == IdOf(n + i) && ids[j] == IdOf(n + j);
      if IdOf(n + i) == IdOf(n + j) {
        IdInjective(n + i, n + j);
      }
    }
  }

  lemma SerialsUnused(r: Registry, ids: seq<string>)
    requires WellKeyed(r) && Serials(r.counter + 1, ids)
    ensures forall i :: 0 <= i < |ids| ==> ids[i] !in r.providers && Slashless(ids[i])
  {
    forall i | 0 <= i < |ids|
      ensures ids[i] !in r.providers && Slashless(ids[i])
    {
      IdValue(r.counter + 1 + i);
      NotIssued(r, r.counter + 1 + i);
    }
  }

  lemma NotIssued(r: Registry, n: nat)
    requires WellKeyed(r) && n > r.counter
    ensures IdOf(n) !in r.providers
  {
    if IdOf(n) in r.providers {
      assert Issued(r.counter, IdOf(n));
      var k :| 1 <= k <= r.counter && IdOf(n) == IdOf(k);
      IdInjective(n, k);
    }
  }

  // ----- the catalogue -----------------------------------------------------

  datatype Entry = Entry(name: string, toolCall: bool)

  function Key(p: Provider): string { p.id + "/" + p.model }

  function EntryOf(p: Provider): Entry { Entry(p.name + " — " + p.model, false) }

  predicate Slashless(id: string) { '/' !in id }

  lemma KeyParts(p: Provider)
    requires Slashless(p.id)
    ensures IndexOf(Key(p), "/") == |p.id|
    ensures Key(p)[..|p.id|] == p.id && Key(p)[|p.id| + 1..] == p.model
  {
    var k := Key(p);
    assert At(k, "/", |p.id|) by { assert k[|p.id|..|p.id| + 1] == "/"; }
    var i := IndexOf(k, "/");
    assert k[i..i + 1][0] == k[i];
  }

  /** Keys of providers with slashless identities are pairwise distinct. */
  lemma KeysDistinct(p: Provider, q: Provider)
    requires Slashless(p.id) && Slashless(q.id) && Key(p) == Key(q)
    ensures p.id == q.id && p.model == q.model
  {
    KeyParts(p);
    KeyParts(q);
  }

  ghost predicate Keyed(m: map<string, Provider>) {
    forall id :: id in m ==> m[id].id == id && Slashless(id)
  }

  lemma WellKeyedKeyed(r: Registry)
    requires WellKeyed(r)
    ensures Keyed(r.providers)
  {
    forall id | id in r.providers
      ensures Slashless(id)
    {
      assert Issued(r.counter, id);
      var n :| 1 <= n <= r.counter && id == IdOf(n);
      IdValue(n);
    }
  }

  function IdPart(k: string): string {
    var i := IndexOf(k, "/");
    if i < 0 then k else k[..i]
  }

  const PLACEHOLDER: map<string, Entry> := map["placeholder/none" := Entry("no providers configured", false)]

  /** The catalogue a registry stands for, without reference to any order. */
  function Catalogue(m: map<string, Provider>): map<string, Entry> {
    if m == map[] then PLACEHOLDER
    else
      var keys := set id | id in m :: Key(m[id]);
      map k | k in keys && IdPart(k) in m :: EntryOf(m[IdPart(k)])
  }

  lemma KeyIds(m: map<string, Provider>)
    requires Keyed(m)
    ensures forall id :: id in m ==> IdPart(Key(m[id])) == id
  {
    forall id | id in m
      ensures IdPart(Key(m[id])) == id
    {
      KeyParts(m[id]);
    }
  }

  /** The catalogue holds exactly the providers' keys, each with its entry. */
  lemma CatalogueIs(m: map<string, Provider>)
    requires Keyed(m) && m != map[]
    ensures forall id :: id in m ==> Key(m[id]) in Catalogue(m) && Catalogue(m)[Key(m[id])] == EntryOf(m[id])
    ensures forall k :: k in Catalogue(m) ==> IdPart(k) in m && k == Key(m[IdPart(k)])
  {
    KeyIds(m);
  }

  lemma CatalogueSize(m: map<string, Provider>)
    requires Keyed(m) && m != map[]
    ensures |Catalogue(m)| == |m|
  {
    var keys := set id | id in m.Keys :: Key(m[id]);
    KeyCount(m, m.Keys);
    CatalogueIs(m);
    assert Catalogue(m).Keys == keys;
  }

  lemma {:induction false} KeyCount(m: map<string, Provider>, ids: set<string>)
    requires Keyed(m) && ids <= m.Keys
    ensures |set id | id in ids :: Key(m[id])| == |ids|
  {
    if ids != {} {
      var x :| x in ids;
      var rest := ids - {x};
      KeyCount(m, rest);
      var ks := set id | id in rest :: Key(m[id]);
      if Key(m[x]) in ks {
        var y :| y in rest && Key(m[y]) == Key(m[x]);
        KeysDistinct(m[x], m[y]);
      }
      assert (set id | id in ids :: Key(m[id])) == ks + {Key(m[x])};
    }
  }

  /** `ps` lists each provider of the registry once, in some order. */
  ghost predicate Lists(ps: seq<Provider>, m: map<string, Provider>) {
    && (forall i :: 0 <= i < |ps| ==> ps[i].id in m && m[ps[i].id] == ps[i])
    && (forall i, j :: 0 <= i < j < |ps| ==> ps[i].id != ps[j].id)
    && (forall id :: id in m ==> HasId(ps, id))
  }

  ghost predicate HasId(ps: seq<Provider>, id: string) {
    exists i :: 0 <= i < |ps| && ps[i].id == id
  }

  function ById(ps: seq<Provider>): (r: seq<Order.Keyed<Provider>>)
    ensures |r| == |ps| && forall i :: 0 <= i < |ps| ==> r[i] == Order.Keyed([ps[i].id], ps[i])
  {
    seq(|ps|, i requires 0 <= i < |ps| => Order.Keyed([ps[i].id], ps[i]))
  }

  /** sort.Slice by identity. */
  function SortById(ps: seq<Provider>): seq<Provider> {
    Order.Items(Order.Sort(ById(ps)))
  }

  lemma SortKeeps(ps: seq<Provider>, p: Provider)
    ensures p in SortById(ps) <==> p in ps
  {
    var xs := ById(ps);
    var sorted := Order.Sort(xs);
    if p in ps {
      var i :| 0 <= i < |ps| && ps[i] == p;
      Order.SortMember(xs, xs[i]);
      var j :| 0 <= j < |sorted| && sorted[j] == xs[i];
      assert Order.Items(sorted)[j] == p;
    }
    if p in SortById(ps) {
      var j :| 0 <= j < |sorted| && sorted[j].item == p;
      Order.SortMember(xs, sorted[j]);
      var i :| 0 <= i < |xs| && xs[i] == sorted[j];
      assert ps[i] == p;
    }
  }

  /** buildConfig's model table: sort, fill a map, fall back to a placeholder. */
  method BuildModels(providers: seq<Provider>, ghost m: map<string, Provider>) returns (models: map<string, Entry>)
    requires Lists(providers, m) && Keyed(m)
    ensures models == Catalogue(m)
  {
    var sorted := SortById(providers);
    SortedMembers(providers, m);
    models := map[];
    for i := 0 to |sorted|
      invariant Covered(sorted[..i], models)
      invariant forall k :: k in models ==> Describes(models, m, k)
    {
      var p := sorted[i];
      KeyParts(p);
      CoveredStep(sorted, i, models);
      models := models[Key(p) := EntryOf(p)];
    }
    assert sorted[..|sorted|] == sorted;
    AllKeysIn(sorted, m, models);
    if |models| == 0 {
      models := PLACEHOLDER;
    }
  }

  ghost predicate Covered(ps: seq<Provider>, models: map<string, Entry>) {
    forall p :: p in ps ==> Key(p) in models
  }

  lemma CoveredStep(ps: seq<Provider>, i: nat, models: map<string, Entry>)
    requires i < |ps| && Covered(ps[..i], models)
    ensures Covered(ps[..i + 1], models[Key(ps[i]) := EntryOf(ps[i])])
  {
    assert ps[..i + 1] == ps[..i] + [ps[i]];
  }

  ghost predicate Describes(models: map<string, Entry>, m: map<string, Provider>, k: string)
    requires k in models
  {
    IdPart(k) in m && k == Key(m[IdPart(k)]) && models[k] == EntryOf(m[IdPart(k)])
  }

  lemma SortedMembers(ps: seq<Provider>, m: map<string, Provider>)
    requires Lists(ps, m)
    ensures forall i :: 0 <= i < |SortById(ps)| ==> SortById(ps)[i].id in m && m[SortById(ps)[i].id] == SortById(ps)[i]
    ensures forall id :: id in m ==> HasId(SortById(ps), id)
  {
    var sorted := SortById(ps);
    forall i | 0 <= i < |sorted|
      ensures sorted[i].id in m && m[sorted[i].id] == sorted[i]
    {
      SortKeeps(ps, sorted[i]);
      var j :| 0 <= j < |ps| && ps[j] == sorted[i];
    }
    forall id | id in m
      ensures HasId(sorted, id)
    {
      assert HasId(ps, id);
      var i :| 0 <= i < |ps| && ps[i].id == id;
      SortKeeps(ps, ps[i]);
      var j :| 0 <= j < |sorted| && sorted[j] == ps[i];
      assert sorted[j].id == id;
    }
  }

  /** A table that covers every provider and holds nothing else is the
      catalogue, whatever order it was filled in. */
  lemma AllKeysIn(sorted: seq<Provider>, m: map<string, Provider>, models: map<string, Entry>)
    requires Keyed(m)
    requires Covered(sorted, models)
    requires forall i :: 0 <= i < |sorted| ==> sorted[i].id in m && m[sorted[i].id] == sorted[i]
    requires forall id :: id in m ==> HasId(sorted, id)
    requires forall k :: k in models ==> Describes(models, m, k)
    ensures (if |models| == 0 then PLACEHOLDER else models) == Catalogue(m)
  {
    forall id | id in m
      ensures Key(m[id]) in models
    {
      assert HasId(sorted, id);
      var j :| 0 <= j < |sorted| && sorted[j].id == id;
      assert sorted[j] in sorted;
    }
    if m == map[] {
      assert models.Keys == {};
    } else {
      var id :| id in m;
      assert Key(m[id]) in models;
      SameTable(m, models);
    }
  }

  lemma SameTable(m: map<string, Provider>, models: map<string, Entry>)
    requires Keyed(m) && m != map[]
    requires forall id :: id in m ==> Key(m[id]) in models
    requires forall k :: k in models ==> Describes(models, m, k)
    ensures models == Catalogue(m)
  {
    CatalogueIs(m);
    TableUnique(m, models, Catalogue(m));
  }

  /** The catalogue's two defining facts leave one table. */
  lemma TableUnique(m: map<string, Provider>, a: map<string, Entry>, b: map<string, Entry>)
    requires forall id :: id in m ==> Key(m[id]) in a && Key(m[id]) in b && b[Key(m[id])] == EntryOf(m[id])
    requires forall k :: k in a ==> Describes(a, m, k)
    requires forall k :: k in b ==> IdPart(k) in m && k == Key(m[IdPart(k)])
    ensures a == b
  {
    forall k | k in a
      ensures k in b && a[k] == b[k]
    {
      assert Describes(a, m, k);
    }
    assert a.Keys == b.Keys;
  }

  // ----- routing -----------------------------------------------------------

  /** splitProxyModel. */
  function SplitProxyModel(s: string): Result<(string, string)> {
    var t := Trim(Unicode, s);
    if t == "" then Err("model is required in request body")
    else
      var i := IndexOf(t, "/");
      if i <= 0 || i == |t| - 1 then Err("model must be of the form '<knaic-provider-id>/<upstream-model>'")
      else Ok((t[..i], t[i + 1..]))
  }

  function ProviderForChat(r: Registry, id: string): Result<Provider> {
    if id == "" then Err("providerId is required")
    else if id !in r.providers then Err("provider not found")
    else if r.providers[id].status != "" && r.providers[id].status != "Ready" then Err("provider is not ready")
    else Ok(r.providers[id])
  }

  /** Where a chat request goes: the provider, and the model name sent to it. */
  function Route(r: Registry, model: string): Result<(Provider, string)> {
    match SplitProxyModel(model)
    case Err(e) => Err(e)
    case Ok(parts) =>
      match ProviderForChat(r, parts.0)
      case Err(e) => Err(e)
      case Ok(p) => Ok((p, parts.1))
  }

  /** A model name that survives the trip through a catalogue key. */
  predicate Routable(model: string) {
    model != "" && !IsIn(Unicode, model[|model| - 1])
  }

  /** A catalogue key splits back into its provider's identity and model exactly
      when the model is not empty and does not end in white space. */
  lemma KeySplitsBack(p: Provider)
    requires Slashless(p.id) && p.id != "" && !IsIn(Unicode, p.id[0])
    ensures SplitProxyModel(Key(p)) == Ok((p.id, p.model)) <==> Routable(p.model)
  {
    var k := Key(p);
    KeyParts(p);
    assert k[0] == p.id[0];
    assert TrimLeft(Unicode, k) == k;
    var t := Trim(Unicode, k);
    if Routable(p.model) {
      assert k[|k| - 1] == p.model[|p.model| - 1];
      assert t == k;
    } else if p.model == "" {
      assert k[|k| - 1] == '/';
      assert t == k;
    } else {
      assert k[|k| - 1] == p.model[|p.model| - 1];
      assert |t| < |k|;
      if SplitProxyModel(k).Ok? {
        var i := IndexOf(t, "/");
        assert |t[..i]| + 1 + |t[i + 1..]| == |t|;
      }
    }
  }

  /** In every well-keyed registry each catalogue key routes to its own provider
      under its own model name, exactly when that name is routable and the
      provider is ready. */
  lemma CatalogueRoutes(r: Registry, id: string)
    requires WellKeyed(r) && id in r.providers
    ensures var p := r.providers[id];
            Key(p) in Catalogue(r.providers)
            && (Route(r, Key(p)) == Ok((p, p.model)) <==> Routable(p.model) && (p.status == "" || p.status == "Ready"))
  {
    var p := r.providers[id];
    WellKeyedKeyed(r);
    CatalogueIs(r.providers);
    assert Issued(r.counter, id);
    IssuedStart(r.counter, id);
    KeySplitsBack(p);
    RouteOf(r, Key(p), p);
  }

  lemma IssuedStart(counter: nat, id: string)
    requires Issued(counter, id)
    ensures id != "" && !IsIn(Unicode, id[0])
  {
    var n :| 1 <= n <= counter && id == IdOf(n);
    IdValue(n);
  }

  /** A request reaches a provider under a model name exactly when its text
      splits into that provider's identity and that name, and it is ready. */
  lemma RouteOf(r: Registry, text: string, p: Provider)
    requires Keyed(r.providers) && p.id in r.providers && r.providers[p.id] == p && p.id != ""
    ensures Route(r, text) == Ok((p, p.model))
            <==> SplitProxyModel(text) == Ok((p.id, p.model)) && (p.status == "" || p.status == "Ready")
  {
    var s := SplitProxyModel(text);
    if Route(r, text) == Ok((p, p.model)) {
      assert s.Ok? && ProviderForChat(r, s.value.0) == Ok(p);
    }
  }

  // ----- what the providers serve ------------------------------------------

  /** What a provider's upstream said it serves, and when. */
  datatype Served = Served(models: seq<string>, fetched: nat)

  /** Five minutes, in nanoseconds. */
  const MODEL_CACHE_TTL: nat := 300_000_000_000

  function Known(cache: map<string, Served>, id: string, now: nat): Option<seq<string>> {
    if id in cache && now - cache[id].fetched < MODEL_CACHE_TTL then Some(cache[id].models) else None
  }

  /** Only an upstream that lists something is remembered. */
  function Learned(cache: map<string, Served>, id: string, upstream: Option<seq<string>>, now: nat): map<string, Served> {
    if upstream.None? || upstream.value == [] then cache else cache[id := Served(upstream.value, now)]
  }

  /** The configured model where it is served, else the first one that is. */
  function Resolved(model: string, served: seq<string>): (r: string)
    ensures served == [] ==> r == model
    ensures served != [] ==> r in served && (model in served ==> r == model)
  {
    if model in served || served == [] then model else served[0]
  }

  /** One whole resolution: the model name to send, and the cache after it. */
  function ResolveOne(cache: map<string, Served>, p: Provider, upstream: Option<seq<string>>, now: nat)
    : (string, map<string, Served>)
  {
    var known := Known(cache, p.id, now);
    (Resolved(p.model, Or(known, Or(upstream, []))),
     if known.Some? then cache else Learned(cache, p.id, upstream, now))
  }

  /** Changing or deleting a provider forgets what it served. */
  function Forgotten(valid: string -> bool, r: Registry, op: Op, cache: map<string, Served>): map<string, Served> {
    if Accepted(valid, r, op) && !op.Create? then cache - {op.id} else cache
  }

  // ----- the registry object -----------------------------------------------

  /** The field by field part of PatchProvider, given up at a bad endpoint. */
  method Edit(valid: string -> bool, p: Provider, patch: ProviderPatch) returns (q: Provider, ok: bool)
    ensures ok <==> (patch.endpoint.Some? ==> valid(patch.endpoint.value))
    ensures ok ==> q == Patched(p, patch)
  {
    q := p;
    if patch.name.Some? {
      q := q.(name := patch.name.value);
    }
    if patch.source.Some? {
      q := q.(source := patch.source.value);
    }
    if patch.namespace_.Some? {
      q := q.(namespace_ := patch.namespace_.value);
    }
    if patch.endpoint.Some? {
      if !valid(patch.endpoint.value) {
        return q, false;
      }
      q := q.(endpoint := TrimSlashes(patch.endpoint.value));
    }
    if patch.apiKey.Some? {
      q := q.(apiKey := patch.apiKey.value);
    }
    if patch.model.Some? {
      q := q.(model := patch.model.value);
    }
    if patch.description.Some? {
      q := q.(description := patch.description.value);
    }
    if patch.status.Some? {
      q := q.(status := patch.status.value);
    }
    return q, true;
  }

  class Service {
    var providers: map<string, Provider>
    var counter: nat
    var modelCache: map<string, Served>

    ghost function State(): Registry
      reads this
    {
      Registry(providers, counter)
    }

    constructor ()
      ensures State() == Registry(map[], 0) && modelCache == map[]
    {
      providers, counter, modelCache := map[], 0, map[];
    }

    method CreateProvider(valid: string -> bool, req: ProviderRequest) returns (r: Result<Provider>, notify: bool)
      modifies this
      ensures State() == Apply(valid, old(State()), Create(req)) && modelCache == old(modelCache)
      ensures notify == r.Ok? == Accepted(valid, old(State()), Create(req))
      ensures r.Ok? ==> r.value.id !in old(providers) || !WellKeyed(old(State()))
      ensures r.Ok? ==> r.value.id in providers && r.value == Redact(providers[r.value.id])
    {
      notify := false;
      if req.name == "" || req.endpoint == "" || req.model == "" {
        return Err("name, endpoint and model are required"), false;
      }
      if !valid(req.endpoint) {
        return Err("invalid endpoint"), false;
      }
      var source := if req.source == "" then "external" else req.source;
      var status := if req.status == "" then "Ready" else req.status;
      if WellKeyed(State()) {
        NotIssued(State(), counter + 1);
      }
      counter := counter + 1;
      var p := Provider(IdOf(counter), req.name, source, req.namespace_, TrimSlashes(req.endpoint), req.apiKey,
                        req.model, req.description, status);
      providers := providers[p.id := p];
      return Ok(Redact(p)), true;
    }

    method PatchProvider(valid: string -> bool, id: string, patch: ProviderPatch)
      returns (r: Result<Provider>, notify: bool)
      modifies this
      ensures State() == Apply(valid, old(State()), Patch(id, patch))
      ensures modelCache == Forgotten(valid, old(State()), Patch(id, patch), old(modelCache))
      ensures notify == r.Ok? == Accepted(valid, old(State()), Patch(id, patch))
      ensures r.Ok? ==> id in providers && r.value == Redact(providers[id])
    {
      if id !in providers {
        return Err("provider not found"), false;
      }
      var p, ok := Edit(valid, providers[id], patch);
      if !ok {
        return Err("invalid endpoint"), false;
      }
      providers := providers[id := p];
      modelCache := modelCache - {id};
      return Ok(Redact(p)), true;
    }

    method DeleteProvider(valid: string -> bool, id: string) returns (ok: bool)
      modifies this
      ensures State() == Apply(valid, old(State()), Delete(id))
      ensures modelCache == Forgotten(valid, old(State()), Delete(id), old(modelCache))
      ensures ok == Accepted(valid, old(State()), Delete(id))
    {
      if id !in providers {
        return false;
      }
      providers := providers - {id};
      modelCache := modelCache - {id};
      return true;
    }

    /** The model name a chat request carries, `upstream` being what the provider
        would answer if it had to be asked. */
    method ResolveModel(p: Provider, upstream: Option<seq<string>>, now: nat) returns (model: string)
      modifies this
      ensures State() == old(State())
      ensures (model, modelCache) == ResolveOne(old(modelCache), p, upstream, now)
    {
      var served := ModelsFor(p.id, upstream, now);
      if served == [] {
        return p.model;
      }
      for i := 0 to |served|
        invariant p.model !in served[..i]
      {
        if served[i] == p.model {
          return p.model;
        }
      }
      assert served[..|served|] == served;
      return served[0];
    }

    method ModelsFor(id: string, upstream: Option<seq<string>>, now: nat) returns (served: seq<string>)
      modifies this
      ensures State() == old(State())
      ensures var known := Known(old(modelCache), id, now);
              && served == Or(known, Or(upstream, []))
              && modelCache == if known.Some? then old(modelCache) else Learned(old(modelCache), id, upstream, now)
    {
      if id in modelCache && now - modelCache[id].fetched < MODEL_CACHE_TTL {
        return modelCache[id].models;
      }
      if upstream.None? || upstream.value == [] {
        return [];
      }
      modelCache := modelCache[id := Served(upstream.value, now)];
      return upstream.value;
    }

    /** snapshotProviders: the map's values in whatever order it yields them. */
    method SnapshotProviders() returns (out: seq<Provider>)
      requires Keyed(providers)
      ensures Lists(out, providers)
    {
      out := [];
      var left := providers.Keys;
      while left != {}
        invariant left <= providers.Keys
        invariant forall i :: 0 <= i < |out| ==> out[i].id in providers.Keys - left && providers[out[i].id] == out[i]
        invariant forall i, j :: 0 <= i < j < |out| ==> out[i].id != out[j].id
        invariant forall id :: id in providers.Keys - left ==> HasId(out, id)
      {
        var id :| id in left;
        ghost var before := out;
        out := out + [providers[id]];
        left := left - {id};
        assert out[|before|].id == id;
        forall x | x in providers.Keys - left
          ensures HasId(out, x)
        {
          if x != id {
            assert HasId(before, x);
            var i :| 0 <= i < |before| && before[i].id == x;
            assert out[i].id == x;
          }
        }
      }
    }
  }
}
