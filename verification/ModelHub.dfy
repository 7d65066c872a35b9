/** The Model Hub: registering, importing, uploading, editing and deleting
    models in a store whose only rule is one model per (scope, namespace, name). */
module ModelHub {
  import opened Text

  datatype Scope = Public | Private | OtherScope(name: string)

  datatype Scheme = HF | ModelScope | S3 | OCI | GitLab | PVC | Git

  datatype Model = Model(id: string, name: string, owner: string, scope: Scope, namespace_: string, uri: string,
                         scheme: Scheme, tags: seq<string>, modelType: string, sizeGB: real, downloads: int,
                         readme: string, collectionId: string, parentModelId: string, derivedKind: string,
                         sourceUrl: string)

  type Store = map<string, Model>

  /** A signed-in caller. `may` is what the namespace authorizer answers; a
      namespace it does not list is one whose lookup fails. */
  datatype User = User(name: string, admin: bool, may: map<string, bool>)

  const FORBIDDEN := "forbidden"
  const MODEL_NOT_FOUND := "model not found"
  const MODEL_CONFLICT := "model already exists"

  // ----- rules on text -----------------------------------------------------

  function ParseScheme(uri: string): Result<Scheme> {
    if "hf://" <= uri || "hf-mirror://" <= uri || "hf-local://" <= uri then Ok(HF)
    else if "modelscope://" <= uri then Ok(ModelScope)
    else if "s3://" <= uri then Ok(S3)
    else if "oci://" <= uri then Ok(OCI)
    else if "gitlab://" <= uri then Ok(GitLab)
    else if "pvc://" <= uri then Ok(PVC)
    else if "git://" <= uri then Ok(Git)
    else Err("unsupported URI scheme")
  }

  function PublicSourceURL(uri: string): string {
    if "hf://" <= uri then "https://huggingface.co/" + uri[|"hf://"|..]
    else if "hf-mirror://" <= uri then "https://hf-mirror.com/" + uri[|"hf-mirror://"|..]
    else if "modelscope://" <= uri then "https://www.modelscope.cn/models/" + uri[|"modelscope://"|..]
    else ""
  }

  predicate IsPublicSource(uri: string) {
    "hf://" <= uri || "hf-mirror://" <= uri || "modelscope://" <= uri || "http://" <= uri || "https://" <= uri
  }

  function NamespaceFor(scope: Scope, ns: string): string {
    if scope.Private? then ns else ""
  }

  function StripSlashes(s: string): string {
    if s == "" then ""
    else if s[0] == '/' then StripSlashes(s[1..])
    else if s[|s| - 1] == '/' then StripSlashes(s[..|s| - 1])
    else s
  }

  /** The model behind a web address, given the address's lower-cased host and
      its path, or the reason it did not parse: its URI and its name. */
  function NormaliseImportURL(parsed: Result<(string, string)>): (r: Result<(string, string)>)
    ensures r.Ok? ==> IsPublicSource(r.value.0) && ParseScheme(r.value.0).Ok? && r.value.1 != ""
  {
    match parsed
    case Err(e) => Err("invalid url: " + e)
    case Ok(u) =>
      var path := StripSlashes(u.1);
      if HasSuffix(u.0, "huggingface.co") then
        if path == "" then Err("URL must include the model owner/name path") else Ok(("hf://" + path, path))
      else if HasSuffix(u.0, "modelscope.cn") then
        var rest := if "models/" <= path then path[|"models/"|..] else path;
        if rest == "" then Err("URL must include the model owner/name path") else Ok(("modelscope://" + rest, rest))
      else Err("URL must be from huggingface.co or modelscope.cn")
  }

  /** Who may write where: platform admins everywhere, others only in private
      namespaces the authorizer grants. */
  function GateWrite(u: Option<User>, scope: Scope, ns: string): (r: Result<()>)
    ensures r.Ok? <==> MayWrite(u, scope, ns)
  {
    if u.None? then Err(FORBIDDEN)
    else if u.value.admin then Ok(())
    else
      match scope
      case Public => Err(FORBIDDEN)
      case Private =>
        if ns == "" then Err("namespace required for private scope")
        else if ns !in u.value.may then Err("authorizer failed")
        else if !u.value.may[ns] then Err(FORBIDDEN)
        else Ok(())
      case OtherScope(_) => Err("unknown scope")
  }

  predicate MayWrite(u: Option<User>, scope: Scope, ns: string) {
    u.Some? && (u.value.admin || (scope.Private? && ns != "" && ns in u.value.may && u.value.may[ns]))
  }

  // ----- requests ----------------------------------------------------------

  datatype CreateRequest = CreateRequest(name: string, owner: string, scope: Scope, namespace_: string, uri: string,
                                         tags: seq<string>, modelType: string, sizeGB: real, readme: string,
                                         collectionId: string, parentModelId: string, derivedKind: string,
                                         sourceUrl: string)

  datatype ImportRequest = ImportRequest(url: string, parsed: Result<(string, string)>, scope: Scope, namespace_: string)

  datatype UploadRequest = UploadRequest(name: string, scope: Scope, namespace_: string, targetUri: string,
                                         modelType: string, sizeGB: real, tags: seq<string>, readme: string)

  datatype PatchRequest = PatchRequest(readme: Option<string>, tags: seq<string>, incDownloads: Option<int>,
                                       collectionId: Option<string>, parentModelId: Option<string>,
                                       derivedKind: Option<string>, sourceUrl: Option<string>)

  /** An operation with the identity it would mint. */
  datatype Op =
    | Create(create: CreateRequest, id: string)
    | Import(import_: ImportRequest, id: string)
    | Upload(upload: UploadRequest, id: string)
    | Patch(patch: PatchRequest, id: string)
    | Delete(id: string)

  predicate Mints(op: Op) {
    op.Create? || op.Import? || op.Upload?
  }

  // ----- the store ---------------------------------------------------------

  predicate SameSlot(a: Model, b: Model) {
    a.scope == b.scope && a.namespace_ == b.namespace_ && a.name == b.name
  }

  predicate Clashes(st: Store, m: Model) {
    exists id | id in st :: SameSlot(st[id], m)
  }

  function StoreCreate(st: Store, m: Model): Result<Model> {
    if Clashes(st, m) then Err(MODEL_CONFLICT) else Ok(m)
  }

  // ----- what each operation answers ---------------------------------------

  function Or(s: string, fallback: string): string {
    if s == "" then fallback else s
  }

  function CreateModel(st: Store, u: Option<User>, q: CreateRequest, id: string): Result<Model> {
    if q.name == "" || q.uri == "" then Err("name and uri are required")
    else
      match ParseScheme(q.uri)
      case Err(e) => Err(e)
      case Ok(scheme) =>
        match GateWrite(u, q.scope, q.namespace_)
        case Err(e) => Err(e)
        case Ok(_) =>
          StoreCreate(st, Model(id, q.name, Or(q.owner, u.value.name), q.scope, NamespaceFor(q.scope, q.namespace_),
                                q.uri, scheme, q.tags, Or(q.modelType, "llm"), q.sizeGB, 0,
                                Or(q.readme, "# " + q.name + "\n\n_Registered via knaic._"),
                                q.collectionId, q.parentModelId, q.derivedKind,
                                Or(q.sourceUrl, PublicSourceURL(q.uri))))
  }

  function ImportModel(st: Store, u: Option<User>, q: ImportRequest, id: string): Result<Model> {
    match NormaliseImportURL(q.parsed)
    case Err(e) => Err(e)
    case Ok(target) =>
      match GateWrite(u, q.scope, q.namespace_)
      case Err(e) => Err(e)
      case Ok(_) =>
        var slash := IndexOf(target.1, "/");
        StoreCreate(st, Model(id, target.1, if slash >= 0 then target.1[..slash] else u.value.name, q.scope,
                              NamespaceFor(q.scope, q.namespace_), target.0, ParseScheme(target.0).value,
                              ["imported"], "llm", 0.0, 0,
                              "# " + target.1 + "\n\nImported from " + q.url + ".", "", "", "",
                              PublicSourceURL(target.0)))
  }

  function With(tags: seq<string>, tag: string): seq<string> {
    if tag in tags then tags else tags + [tag]
  }

  function UploadModel(st: Store, u: Option<User>, q: UploadRequest, id: string): Result<Model> {
    if q.name == "" || q.targetUri == "" then Err("name and targetUri are required")
    else
      match ParseScheme(q.targetUri)
      case Err(e) => Err(e)
      case Ok(scheme) =>
        match GateWrite(u, q.scope, q.namespace_)
        case Err(e) => Err(e)
        case Ok(_) =>
          StoreCreate(st, Model(id, q.name, u.value.name, q.scope, NamespaceFor(q.scope, q.namespace_), q.targetUri,
                                scheme, With(q.tags, "uploaded"), Or(q.modelType, "llm"), q.sizeGB, 0,
                                Or(q.readme, "# " + q.name + "\n\nUploaded to " + q.targetUri + "."), "", "", "",
                                PublicSourceURL(q.targetUri)))
  }

  predicate OnlyCounts(p: PatchRequest) {
    p.readme.None? && p.tags == [] && p.collectionId.None? && p.parentModelId.None? && p.derivedKind.None?
    && p.sourceUrl.None?
  }

  function Get<T>(o: Option<T>, old_: T): T {
    if o.Some? then o.value else old_
  }

  function Patched(m: Model, p: PatchRequest): Model {
    m.(readme := Get(p.readme, m.readme),
       tags := if p.tags != [] then p.tags else m.tags,
       downloads := m.downloads + Get(p.incDownloads, 0),
       collectionId := Get(p.collectionId, m.collectionId),
       parentModelId := Get(p.parentModelId, m.parentModelId),
       derivedKind := Get(p.derivedKind, m.derivedKind),
       sourceUrl := Get(p.sourceUrl, m.sourceUrl))
  }

  function PatchModel(st: Store, u: Option<User>, id: string, p: PatchRequest): Result<Model> {
    if id !in st then Err(MODEL_NOT_FOUND)
    else if !OnlyCounts(p) && GateWrite(u, st[id].scope, st[id].namespace_).Err? then
      Err(GateWrite(u, st[id].scope, st[id].namespace_).error)
    else Ok(Patched(st[id], p))
  }

  function DeleteModel(st: Store, u: Option<User>, id: string): Result<Model> {
    if id !in st then Err(MODEL_NOT_FOUND)
    else if GateWrite(u, st[id].scope, st[id].namespace_).Err? then
      Err(GateWrite(u, st[id].scope, st[id].namespace_).error)
    else Ok(st[id])
  }

  function Answer(st: Store, u: Option<User>, op: Op): Result<Model> {
    match op
    case Create(q, id) => CreateModel(st, u, q, id)
    case Import(q, id) => ImportModel(st, u, q, id)
    case Upload(q, id) => UploadModel(st, u, q, id)
    case Patch(p, id) => PatchModel(st, u, id, p)
    case Delete(id) => DeleteModel(st, u, id)
  }

  /** The store after a model was answered: written under its identity. */
  function Put(st: Store, r: Result<Model>): Store {
    if r.Ok? then st[r.value.id := r.value] else st
  }

  function Apply(st: Store, u: Option<User>, op: Op): Store {
    if op.Delete? then (if Answer(st, u, op).Ok? then st - {op.id} else st)
    else Put(st, Answer(st, u, op))
  }

  // ----- the calls the publish workflow makes ------------------------------

  /** The slice of a private model that publishing works from. */
  datatype Snapshot = Snapshot(id: string, name: string, owner: string, namespace_: string, uri: string,
                               modelType: string, sizeGB: real, tags: seq<string>, readme: string, sourceUrl: string)

  datatype PublishCopy = PublishCopy(name: string, owner: string, uri: string, tags: seq<string>, modelType: string,
                                     sizeGB: real, readme: string, collectionId: string, sourceUrl: string)

  function PrivateSnapshot(st: Store, u: Option<User>, id: string): Result<Snapshot> {
    if id !in st then Err(MODEL_NOT_FOUND)
    else
      var m := st[id];
      if !m.scope.Private? then Err("only private models can be published")
      else
        match GateWrite(u, m.scope, m.namespace_)
        case Err(e) => Err(e)
        case Ok(_) => Ok(Snapshot(m.id, m.name, m.owner, m.namespace_, m.uri, m.modelType, m.sizeGB, m.tags, m.readme,
                                  m.sourceUrl))
  }

  /** The catalogue entry a publish copy becomes. */
  function CatalogModel(q: PublishCopy, scheme: Scheme, id: string): Model {
    Model(id, q.name, q.owner, Public, "", q.uri, scheme, With(q.tags, "published"), Or(q.modelType, "llm"), q.sizeGB, 0,
          Or(q.readme, "# " + q.name + "\n\n_Published from a private model via knaic._"),
          q.collectionId, "", "", Or(q.sourceUrl, PublicSourceURL(q.uri)))
  }

  function PublicCopy(st: Store, u: Option<User>, q: PublishCopy, id: string): Result<Model> {
    if u.None? || !u.value.admin then Err(FORBIDDEN)
    else
      match ParseScheme(q.uri)
      case Err(e) => Err(e)
      case Ok(scheme) =>
        if !IsPublicSource(q.uri) then Err("URI must be publicly accessible to publish to catalog")
        else
          StoreCreate(st, CatalogModel(q, scheme, id))
  }

  // ----- addresses ---------------------------------------------------------

  lemma {:induction false} StripsOnlySlashes(a: nat, p: string, b: nat)
    requires p != "" && p[0] != '/' && p[|p| - 1] != '/'
    ensures StripSlashes(Slashes(a) + p + Slashes(b)) == p
    decreases a + b
  {
    var s := Slashes(a) + p + Slashes(b);
    if a > 0 {
      assert s[0] == '/' && s[1..] == Slashes(a - 1) + p + Slashes(b);
      StripsOnlySlashes(a - 1, p, b);
    } else if b > 0 {
      assert s[0] == p[0];
      assert s[|s| - 1] == '/' && s[..|s| - 1] == Slashes(a) + p + Slashes(b - 1);
      StripsOnlySlashes(a, p, b - 1);
    } else {
      assert s == p;
    }
  }

  function Slashes(n: nat): (s: string)
    ensures |s| == n && forall i :: 0 <= i < n ==> s[i] == '/'
  {
    seq(n, i => '/')
  }

  /** Importing the page of an upstream model from any host of either site, with
      whatever slashes around its path and with or without ModelScope's "models/",
      registers that model; and the public page derived from the registered URI is
      such a page. */
  lemma ImportUndoesSource(p: string, a: nat, b: nat, ms: string, hf: string)
    requires p != "" && p[0] != '/' && p[|p| - 1] != '/'
    requires HasSuffix(ms, "modelscope.cn") && HasSuffix(hf, "huggingface.co")
    ensures NormaliseImportURL(Ok((ms, Slashes(a) + ("models/" + p) + Slashes(b)))) == Ok(("modelscope://" + p, p))
    ensures !("models/" <= p) ==>
              NormaliseImportURL(Ok((ms, Slashes(a) + p + Slashes(b)))) == Ok(("modelscope://" + p, p))
    ensures NormaliseImportURL(Ok((hf, Slashes(a) + p + Slashes(b)))) == Ok(("hf://" + p, p))
    ensures PublicSourceURL("modelscope://" + p) == "https://www.modelscope.cn/models/" + p
    ensures PublicSourceURL("hf://" + p) == "https://huggingface.co/" + p
    ensures HasSuffix("www.modelscope.cn", "modelscope.cn")
  {
    StripsOnlySlashes(a, p, b);
    var q := "models/" + p;
    StripsOnlySlashes(a, q, b);
    assert q[7..] == p;
    OneSite(ms);
    assert "www.modelscope.cn"[4..] == "modelscope.cn";
    assert ("modelscope://" + p)[13..] == p && ("modelscope://" + p)[0] == 'm';
    assert ("hf://" + p)[5..] == p;
  }

  lemma OneSite(host: string)
    requires HasSuffix(host, "modelscope.cn")
    ensures !HasSuffix(host, "huggingface.co")
  {
    LastOf(host, "modelscope.cn");
    if HasSuffix(host, "huggingface.co") {
      LastOf(host, "huggingface.co");
    }
  }

  lemma LastOf(s: string, x: string)
    requires HasSuffix(s, x) && x != ""
    ensures s != "" && s[|s| - 1] == x[|x| - 1]
  {
    assert s[|s| - |x|..][|x| - 1] == s[|s| - 1];
  }

  // ----- what each operation does, field by field --------------------------

  /** Which addresses have which scheme. */
  lemma SchemeByPrefix(uri: string)
    ensures ParseScheme(uri) == Ok(HF) <==> "hf://" <= uri || "hf-mirror://" <= uri || "hf-local://" <= uri
    ensures ParseScheme(uri) == Ok(ModelScope) <==> "modelscope://" <= uri
    ensures ParseScheme(uri) == Ok(S3) <==> "s3://" <= uri
    ensures ParseScheme(uri) == Ok(OCI) <==> "oci://" <= uri
    ensures ParseScheme(uri) == Ok(GitLab) <==> "gitlab://" <= uri
    ensures ParseScheme(uri) == Ok(PVC) <==> "pvc://" <= uri
    ensures ParseScheme(uri) == Ok(Git) <==> "git://" <= uri
  {
    FirstLetters(uri);
  }

  /** The prefixes exclude each other by their first letters. */
  lemma FirstLetters(uri: string)
    ensures "hf://" <= uri ==> uri[0] == 'h' && uri[2] == ':'
    ensures "hf-mirror://" <= uri ==> uri[0] == 'h' && uri[2] == '-' && uri[3] == 'm'
    ensures "hf-local://" <= uri ==> uri[0] == 'h' && uri[2] == '-' && uri[3] == 'l'
    ensures "modelscope://" <= uri ==> uri[0] == 'm'
    ensures "s3://" <= uri ==> uri[0] == 's'
    ensures "oci://" <= uri ==> uri[0] == 'o'
    ensures "gitlab://" <= uri ==> uri[0] == 'g' && uri[3] == 'l'
    ensures "pvc://" <= uri ==> uri[0] == 'p'
    ensures "git://" <= uri ==> uri[0] == 'g' && uri[3] == ':'
  {
  }

  lemma MirrorPage(uri: string)
    requires "hf-mirror://" <= uri
    ensures PublicSourceURL(uri) == "https://hf-mirror.com/" + uri[12..]
  {
    assert uri[2] == '-';
    assert !("hf://" <= uri);
  }

  lemma ModelScopePage(uri: string)
    requires "modelscope://" <= uri
    ensures PublicSourceURL(uri) == "https://www.modelscope.cn/models/" + uri[13..]
  {
    assert uri[0] == 'm';
    assert !("hf://" <= uri) && !("hf-mirror://" <= uri);
  }

  lemma NoPage(uri: string)
    requires !("hf://" <= uri) && !("hf-mirror://" <= uri) && !("modelscope://" <= uri)
    ensures PublicSourceURL(uri) == ""
  {
  }

  lemma HuggingFacePage(uri: string)
    requires "hf://" <= uri
    ensures PublicSourceURL(uri) == "https://huggingface.co/" + uri[5..]
  {
  }

  /** The public page of an upstream address; no other address has one. */
  lemma PublicPages(uri: string)
    ensures "hf://" <= uri ==> PublicSourceURL(uri) == "https://huggingface.co/" + uri[5..]
    ensures "hf-mirror://" <= uri ==> PublicSourceURL(uri) == "https://hf-mirror.com/" + uri[12..]
    ensures "modelscope://" <= uri ==> PublicSourceURL(uri) == "https://www.modelscope.cn/models/" + uri[13..]
    ensures !("hf://" <= uri) && !("hf-mirror://" <= uri) && !("modelscope://" <= uri) ==> PublicSourceURL(uri) == ""
  {
    if "hf-mirror://" <= uri {
      MirrorPage(uri);
      FirstLetters(uri);
    } else if "modelscope://" <= uri {
      ModelScopePage(uri);
      FirstLetters(uri);
    } else if "hf://" <= uri {
      HuggingFacePage(uri);
    } else {
      NoPage(uri);
    }
  }

  /** No model has this place, this namespace and this name. */
  predicate SlotFree(st: Store, scope: Scope, ns: string, name: string) {
    forall id :: id in st ==> !(st[id].scope == scope && st[id].namespace_ == ns && st[id].name == name)
  }

  /** The address has one of the schemes the hub knows. */
  predicate HasScheme(uri: string) {
    "hf://" <= uri || "hf-mirror://" <= uri || "hf-local://" <= uri || "modelscope://" <= uri || "s3://" <= uri
    || "oci://" <= uri || "gitlab://" <= uri || "pvc://" <= uri || "git://" <= uri
  }

  lemma CreateProgress(st: Store, u: Option<User>, q: CreateRequest, id: string)
    ensures Answer(st, u, Op.Create(q, id)).Ok?
            <==> q.name != "" && HasScheme(q.uri) && u.Some?
                 && (u.value.admin
                     || (q.scope.Private? && q.namespace_ != "" && q.namespace_ in u.value.may && u.value.may[q.namespace_]))
                 && SlotFree(st, q.scope, if q.scope.Private? then q.namespace_ else "", q.name)
  {
  }

  lemma CreateEffect(st: Store, u: Option<User>, q: CreateRequest, id: string)
    requires Answer(st, u, Op.Create(q, id)).Ok?
    ensures var t := Apply(st, u, Op.Create(q, id));
            id in t && t == st[id := t[id]] && Answer(st, u, Op.Create(q, id)) == Ok(t[id])
            && var m := t[id];
               && m.id == id && m.name == q.name && m.uri == q.uri && m.scope == q.scope && m.tags == q.tags
               && m.namespace_ == (if q.scope.Private? then q.namespace_ else "")
               && m.owner == (if q.owner != "" then q.owner else u.value.name)
               && m.modelType == (if q.modelType != "" then q.modelType else "llm")
               && m.sizeGB == q.sizeGB && m.downloads == 0
               && m.readme == (if q.readme != "" then q.readme else "# " + q.name + "\n\n_Registered via knaic._")
               && m.collectionId == q.collectionId && m.parentModelId == q.parentModelId && m.derivedKind == q.derivedKind
               && m.sourceUrl == (if q.sourceUrl != "" then q.sourceUrl else PublicSourceURL(q.uri))
               && Ok(m.scheme) == ParseScheme(q.uri)
  {
  }

  lemma ImportProgress(st: Store, u: Option<User>, q: ImportRequest, id: string)
    ensures Answer(st, u, Op.Import(q, id)).Ok?
            <==> NormaliseImportURL(q.parsed).Ok? && u.Some?
                 && (u.value.admin
                     || (q.scope.Private? && q.namespace_ != "" && q.namespace_ in u.value.may && u.value.may[q.namespace_]))
                 && SlotFree(st, q.scope, if q.scope.Private? then q.namespace_ else "", NormaliseImportURL(q.parsed).value.1)
  {
  }

  lemma ImportEffect(st: Store, u: Option<User>, q: ImportRequest, id: string)
    requires Answer(st, u, Op.Import(q, id)).Ok?
    ensures var t := Apply(st, u, Op.Import(q, id));
            var page := NormaliseImportURL(q.parsed).value;
            id in t && t == st[id := t[id]] && Answer(st, u, Op.Import(q, id)) == Ok(t[id])
            && var m := t[id];
               && m.id == id && m.name == page.1 && m.uri == page.0 && m.scope == q.scope && m.tags == ["imported"]
               && m.namespace_ == (if q.scope.Private? then q.namespace_ else "") && m.modelType == "llm"
               && m.sizeGB == 0.0 && m.downloads == 0 && m.collectionId == m.parentModelId == m.derivedKind == ""
               && m.readme == "# " + page.1 + "\n\nImported from " + q.url + "."
               && m.sourceUrl == PublicSourceURL(page.0) && Ok(m.scheme) == ParseScheme(page.0)
               && (if '/' in page.1 then '/' !in m.owner && m.owner + "/" <= page.1 else m.owner == u.value.name)
  {
    OwnerPart(NormaliseImportURL(q.parsed).value.1);
  }

  lemma OwnerPart(name: string)
    ensures var i := IndexOf(name, "/");
            if '/' in name then i >= 0 && '/' !in name[..i] && name[..i] + "/" <= name else i < 0
  {
    var i := IndexOf(name, "/");
    forall k | 0 <= k < |name| && name[k] == '/'
      ensures At(name, "/", k)
    {
      assert name[k..k + 1] == "/";
    }
    if i >= 0 {
      assert name[i] == name[i..i + 1][0] == '/';
      assert name[..i] + "/" == name[..i + 1];
    }
  }

  lemma UploadProgress(st: Store, u: Option<User>, q: UploadRequest, id: string)
    ensures Answer(st, u, Op.Upload(q, id)).Ok?
            <==> q.name != "" && HasScheme(q.targetUri) && u.Some?
                 && (u.value.admin
                     || (q.scope.Private? && q.namespace_ != "" && q.namespace_ in u.value.may && u.value.may[q.namespace_]))
                 && SlotFree(st, q.scope, if q.scope.Private? then q.namespace_ else "", q.name)
  {
  }

  lemma UploadEffect(st: Store, u: Option<User>, q: UploadRequest, id: string)
    requires Answer(st, u, Op.Upload(q, id)).Ok?
    ensures var t := Apply(st, u, Op.Upload(q, id));
            id in t && t == st[id := t[id]] && Answer(st, u, Op.Upload(q, id)) == Ok(t[id])
            && var m := t[id];
               && m.id == id && m.name == q.name && m.uri == q.targetUri && m.scope == q.scope
               && m.namespace_ == (if q.scope.Private? then q.namespace_ else "") && m.owner == u.value.name
               && m.tags == (if "uploaded" in q.tags then q.tags else q.tags + ["uploaded"])
               && m.modelType == (if q.modelType != "" then q.modelType else "llm")
               && m.sizeGB == q.sizeGB && m.downloads == 0 && m.collectionId == m.parentModelId == m.derivedKind == ""
               && m.readme == (if q.readme != "" then q.readme else "# " + q.name + "\n\nUploaded to " + q.targetUri + ".")
               && m.sourceUrl == PublicSourceURL(q.targetUri) && Ok(m.scheme) == ParseScheme(q.targetUri)
  {
  }

  /** Anybody may count downloads; any other edit needs the right to write. */
  lemma PatchProgress(st: Store, u: Option<User>, id: string, p: PatchRequest)
    ensures Answer(st, u, Op.Patch(p, id)).Ok?
            <==> id in st
                 && ((p.readme.None? && p.tags == [] && p.collectionId.None? && p.parentModelId.None? && p.derivedKind.None?
                      && p.sourceUrl.None?)
                     || (u.Some?
                         && (u.value.admin
                             || (st[id].scope.Private? && st[id].namespace_ != "" && st[id].namespace_ in u.value.may
                                 && u.value.may[st[id].namespace_]))))
  {
  }

  lemma PatchEffect(st: Store, u: Option<User>, id: string, p: PatchRequest)
    requires Keyed(st) && Answer(st, u, Op.Patch(p, id)).Ok?
    ensures var t := Apply(st, u, Op.Patch(p, id));
            id in t && t == st[id := t[id]] && Answer(st, u, Op.Patch(p, id)) == Ok(t[id])
            && var old_, m := st[id], t[id];
               && m.readme == (if p.readme.Some? then p.readme.value else old_.readme)
               && m.tags == (if p.tags != [] then p.tags else old_.tags)
               && m.downloads == old_.downloads + (if p.incDownloads.Some? then p.incDownloads.value else 0)
               && m.collectionId == (if p.collectionId.Some? then p.collectionId.value else old_.collectionId)
               && m.parentModelId == (if p.parentModelId.Some? then p.parentModelId.value else old_.parentModelId)
               && m.derivedKind == (if p.derivedKind.Some? then p.derivedKind.value else old_.derivedKind)
               && m.sourceUrl == (if p.sourceUrl.Some? then p.sourceUrl.value else old_.sourceUrl)
               && m.id == old_.id && m.name == old_.name && m.owner == old_.owner && m.scope == old_.scope
               && m.namespace_ == old_.namespace_ && m.uri == old_.uri && m.scheme == old_.scheme
               && m.modelType == old_.modelType && m.sizeGB == old_.sizeGB
  {
  }

  lemma DeleteIs(st: Store, u: Option<User>, id: string)
    ensures Answer(st, u, Op.Delete(id)).Ok?
            <==> id in st && u.Some?
                 && (u.value.admin
                     || (st[id].scope.Private? && st[id].namespace_ != "" && st[id].namespace_ in u.value.may
                         && u.value.may[st[id].namespace_]))
    ensures Apply(st, u, Op.Delete(id)) == if Answer(st, u, Op.Delete(id)).Ok? then st - {id} else st
  {
  }

  // ----- what every operation keeps ----------------------------------------

  ghost predicate Keyed(st: Store) {
    forall id :: id in st ==> st[id].id == id
  }

  ghost predicate Unique(st: Store) {
    forall a, b :: a in st && b in st && SameSlot(st[a], st[b]) ==> a == b
  }

  /** Private models were all registered through the service, so their URIs parse. */
  ghost predicate PrivateParses(st: Store) {
    forall id :: id in st && st[id].scope.Private? ==> ParseScheme(st[id].uri) == Ok(st[id].scheme)
  }

  ghost predicate Inv(st: Store) {
    Keyed(st) && Unique(st) && PrivateParses(st)
  }

  /** Everything a model is registered as stays what it was. */
  predicate SameIdentity(a: Model, b: Model) {
    a.id == b.id && a.uri == b.uri && a.scheme == b.scheme && a.owner == b.owner && SameSlot(a, b)
  }

  /** Whatever a registering call answers is new, well formed and clash free. */
  lemma AnswerIsNew(st: Store, u: Option<User>, op: Op)
    requires Mints(op) && Answer(st, u, op).Ok?
    ensures var m := Answer(st, u, op).value;
            m.id == op.id && ParseScheme(m.uri) == Ok(m.scheme) && !Clashes(st, m)
            && (m.scope.Private? || m.namespace_ == "") && MayWrite(u, m.scope, m.namespace_)
  {
  }

  lemma PutKeepsInv(st: Store, m: Model)
    requires Inv(st) && m.id !in st && !Clashes(st, m)
    requires m.scope.Private? ==> ParseScheme(m.uri) == Ok(m.scheme)
    ensures Inv(st[m.id := m])
  {
    assert forall a :: a in st ==> !SameSlot(st[a], m) && !SameSlot(m, st[a]);
  }

  /** Every operation whose minted identity is fresh keeps the store keyed,
      unique per (scope, namespace, name) and parseable. */
  lemma ApplyKeepsInv(st: Store, u: Option<User>, op: Op)
    requires Inv(st)
    requires Mints(op) ==> op.id !in st
    ensures Inv(Apply(st, u, op))
  {
    var r := Answer(st, u, op);
    if Mints(op) && r.Ok? {
      AnswerIsNew(st, u, op);
      PutKeepsInv(st, r.value);
    }
  }

  /** A model that survives an operation keeps its identity: nothing the
      service offers rewrites a URI, a scope, a namespace, a name or an owner. */
  lemma IdentityIsFixed(st: Store, u: Option<User>, op: Op, id: string)
    requires Keyed(st)
    requires Mints(op) ==> op.id !in st
    requires id in st && id in Apply(st, u, op)
    ensures SameIdentity(st[id], Apply(st, u, op)[id])
  {
    if Mints(op) && Answer(st, u, op).Ok? {
      AnswerIsNew(st, u, op);
    }
  }

  /** An edit or a deletion reads a model, checks its gate and then writes, in
      two store calls. Whatever somebody else's call does in between, a model that
      is still there is one whose write is allowed exactly if it was before. */
  lemma GateIsStable(st: Store, u: Option<User>, op: Op, id: string, v: Option<User>, p: PatchRequest)
    requires Keyed(st)
    requires Mints(op) ==> op.id !in st
    requires id in st && id in Apply(st, u, op)
    ensures PatchModel(Apply(st, u, op), v, id, p).Ok? <==> PatchModel(st, v, id, p).Ok?
    ensures DeleteModel(Apply(st, u, op), v, id).Ok? <==> DeleteModel(st, v, id).Ok?
  {
    IdentityIsFixed(st, u, op, id);
  }

  /** Apart from download counts, nothing in the hub changes, appears or
      disappears except where the caller may write: the public catalogue only
      ever by a platform admin, a private namespace only by its members. */
  lemma OnlyWritersWrite(st: Store, u: Option<User>, op: Op, id: string)
    requires Keyed(st)
    requires Mints(op) ==> op.id !in st
    ensures var t := Apply(st, u, op);
            && (id in st && id !in t ==> MayWrite(u, st[id].scope, st[id].namespace_))
            && (id !in st && id in t ==> MayWrite(u, t[id].scope, t[id].namespace_))
            && (id in st && id in t && st[id] != t[id].(downloads := st[id].downloads)
                ==> MayWrite(u, st[id].scope, st[id].namespace_))
  {
    if Mints(op) && Answer(st, u, op).Ok? {
      AnswerIsNew(st, u, op);
    }
  }

  // ----- the live store and service ----------------------------------------

  /** The update closure of Patch. */
  method Edit(m: Model, p: PatchRequest) returns (r: Model)
    ensures r == Patched(m, p)
  {
    r := m;
    if p.readme.Some? {
      r := r.(readme := p.readme.value);
    }
    if |p.tags| > 0 {
      r := r.(tags := p.tags);
    }
    if p.incDownloads.Some? {
      r := r.(downloads := r.downloads + p.incDownloads.value);
    }
    if p.collectionId.Some? {
      r := r.(collectionId := p.collectionId.value);
    }
    if p.parentModelId.Some? {
      r := r.(parentModelId := p.parentModelId.value);
    }
    if p.derivedKind.Some? {
      r := r.(derivedKind := p.derivedKind.value);
    }
    if p.sourceUrl.Some? {
      r := r.(sourceUrl := p.sourceUrl.value);
    }
  }

  class MemoryStore {
    var items: map<string, Model>

    constructor ()
      ensures items == map[]
    {
      items := map[];
    }

    method Create(m: Model) returns (r: Result<Model>)
      modifies this
      ensures r == StoreCreate(old(items), m)
      ensures items == Put(old(items), r)
    {
      var left := items.Keys;
      while left != {}
        invariant left <= items.Keys && items == old(items)
        invariant forall id :: id in items.Keys - left ==> !SameSlot(items[id], m)
      {
        var id :| id in left;
        if SameSlot(items[id], m) {
          return Err(MODEL_CONFLICT);
        }
        left := left - {id};
      }
      items := items[m.id := m];
      r := Ok(m);
    }
  }

  class Service {
    const store: MemoryStore

    constructor (store: MemoryStore)
      ensures this.store == store
    {
      this.store := store;
    }

    method Create(u: Option<User>, q: CreateRequest, id: string) returns (r: Result<Model>)
      modifies store
      ensures r == Answer(old(store.items), u, Op.Create(q, id))
      ensures store.items == Apply(old(store.items), u, Op.Create(q, id))
    {
      if q.name == "" || q.uri == "" {
        return Err("name and uri are required");
      }
      var scheme := ParseScheme(q.uri);
      if scheme.Err? {
        return Err(scheme.error);
      }
      var gate := GateWrite(u, q.scope, q.namespace_);
      if gate.Err? {
        return Err(gate.error);
      }
      var owner := if q.owner == "" then u.value.name else q.owner;
      var modelType := if q.modelType == "" then "llm" else q.modelType;
      var sourceUrl := if q.sourceUrl == "" then PublicSourceURL(q.uri) else q.sourceUrl;
      var m := Model(id, q.name, owner, q.scope, NamespaceFor(q.scope, q.namespace_), q.uri, scheme.value, q.tags,
                     modelType, q.sizeGB, 0, q.readme, q.collectionId, q.parentModelId, q.derivedKind, sourceUrl);
      if m.readme == "" {
        m := m.(readme := "# " + m.name + "\n\n_Registered via knaic._");
      }
      r := store.Create(m);
    }

    method Import(u: Option<User>, q: ImportRequest, id: string) returns (r: Result<Model>)
      modifies store
      ensures r == Answer(old(store.items), u, Op.Import(q, id))
      ensures store.items == Apply(old(store.items), u, Op.Import(q, id))
    {
      var target := NormaliseImportURL(q.parsed);
      if target.Err? {
        return Err(target.error);
      }
      var gate := GateWrite(u, q.scope, q.namespace_);
      if gate.Err? {
        return Err(gate.error);
      }
      var (uri, name) := target.value;
      var owner := u.value.name;
      var slash := IndexOf(name, "/");
      if slash >= 0 {
        owner := name[..slash];
      }
      r := store.Create(Model(id, name, owner, q.scope, NamespaceFor(q.scope, q.namespace_), uri,
                              ParseScheme(uri).value, ["imported"], "llm", 0.0, 0,
                              "# " + name + "\n\nImported from " + q.url + ".", "", "", "", PublicSourceURL(uri)));
    }

    method Upload(u: Option<User>, q: UploadRequest, id: string) returns (r: Result<Model>)
      modifies store
      ensures r == Answer(old(store.items), u, Op.Upload(q, id))
      ensures store.items == Apply(old(store.items), u, Op.Upload(q, id))
    {
      if q.name == "" || q.targetUri == "" {
        return Err("name and targetUri are required");
      }
      var scheme := ParseScheme(q.targetUri);
      if scheme.Err? {
        return Err(scheme.error);
      }
      var gate := GateWrite(u, q.scope, q.namespace_);
      if gate.Err? {
        return Err(gate.error);
      }
      var modelType := if q.modelType == "" then "llm" else q.modelType;
      var tags := q.tags;
      if "uploaded" !in tags {
        tags := tags + ["uploaded"];
      }
      var m := Model(id, q.name, u.value.name, q.scope, NamespaceFor(q.scope, q.namespace_), q.targetUri, scheme.value,
                     tags, modelType, q.sizeGB, 0, q.readme, "", "", "", PublicSourceURL(q.targetUri));
      if m.readme == "" {
        m := m.(readme := "# " + m.name + "\n\nUploaded to " + m.uri + ".");
      }
      r := store.Create(m);
    }

    method Patch(u: Option<User>, id: string, p: PatchRequest) returns (r: Result<Model>)
      requires Keyed(store.items)
      modifies store
      ensures r == Answer(old(store.items), u, Op.Patch(p, id))
      ensures store.items == Apply(old(store.items), u, Op.Patch(p, id))
    {
      if id !in store.items {
        return Err(MODEL_NOT_FOUND);
      }
      var m := store.items[id];
      if p.readme.Some? || |p.tags| > 0 || p.collectionId.Some? || p.parentModelId.Some? || p.derivedKind.Some?
         || p.sourceUrl.Some?
      {
        var gate := GateWrite(u, m.scope, m.namespace_);
        if gate.Err? {
          return Err(gate.error);
        }
      }
      m := Edit(m, p);
      store.items := store.items[id := m];
      r := Ok(m);
    }

    method Delete(u: Option<User>, id: string) returns (r: Result<Model>)
      modifies store
      ensures r == Answer(old(store.items), u, Op.Delete(id))
      ensures store.items == Apply(old(store.items), u, Op.Delete(id))
    {
      if id !in store.items {
        return Err(MODEL_NOT_FOUND);
      }
      var m := store.items[id];
      var gate := GateWrite(u, m.scope, m.namespace_);
      if gate.Err? {
        return Err(gate.error);
      }
      store.items := store.items - {id};
      r := Ok(m);
    }

    method GetPrivateForPublish(u: Option<User>, id: string) returns (r: Result<Snapshot>)
      ensures r == PrivateSnapshot(store.items, u, id)
    {
      if id !in store.items {
        return Err(MODEL_NOT_FOUND);
      }
      var m := store.items[id];
      if !m.scope.Private? {
        return Err("only private models can be published");
      }
      var gate := GateWrite(u, m.scope, m.namespace_);
      if gate.Err? {
        return Err(gate.error);
      }
      r := Ok(Snapshot(m.id, m.name, m.owner, m.namespace_, m.uri, m.modelType, m.sizeGB, m.tags, m.readme, m.sourceUrl));
    }

    method CreatePublicFromRequest(u: Option<User>, q: PublishCopy, id: string) returns (r: Result<Model>)
      modifies store
      ensures r == PublicCopy(old(store.items), u, q, id)
      ensures store.items == Put(old(store.items), r)
    {
      if u.None? || !u.value.admin {
        return Err(FORBIDDEN);
      }
      var scheme := ParseScheme(q.uri);
      if scheme.Err? {
        return Err(scheme.error);
      }
      if !IsPublicSource(q.uri) {
        return Err("URI must be publicly accessible to publish to catalog");
      }
      var tags := q.tags;
      if "published" !in tags {
        tags := tags + ["published"];
      }
      var m := Model(id, q.name, q.owner, Public, "", q.uri, scheme.value, tags,
                     if q.modelType == "" then "llm" else q.modelType, q.sizeGB, 0, q.readme, q.collectionId, "", "",
                     q.sourceUrl);
      if m.readme == "" {
        m := m.(readme := "# " + m.name + "\n\n_Published from a private model via knaic._");
      }
      if m.sourceUrl == "" {
        m := m.(sourceUrl := PublicSourceURL(q.uri));
      }
      r := store.Create(m);
    }
  }
}
