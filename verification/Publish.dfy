/** The publish workflow: requests to copy a private model into the public
    catalogue, reviewed by platform admins, over two stores. */
module Publish {
  import opened Text
  import opened ModelHub

  datatype Status = Pending | Approved | Rejected

  datatype Request = Request(id: string, privateModelId: string, privateNamespace: string, privateName: string,
                             privateUri: string, targetName: string, targetCollectionId: string, requestedBy: string,
                             note: string, status: Status, reviewedBy: string, reviewerNote: string,
                             catalogModelId: string)

  type Requests = map<string, Request>

  const REQUEST_NOT_FOUND := "publish request not found"
  const REQUEST_CONFLICT := "publish request already exists"

  predicate IsPublicURI(uri: string) {
    "hf://" <= uri || "hf-mirror://" <= uri || "modelscope://" <= uri || "http://" <= uri || "https://" <= uri
  }

  // ----- the request store -------------------------------------------------

  predicate PendingFor(r: Request, model: string) {
    r.privateModelId == model && r.status.Pending?
  }

  predicate HasPending(rs: Requests, model: string) {
    exists id | id in rs :: PendingFor(rs[id], model)
  }

  function RequestCreate(rs: Requests, r: Request): Result<Request> {
    if r.id in rs || HasPending(rs, r.privateModelId) then Err(REQUEST_CONFLICT) else Ok(r)
  }

  /** What a review writes into the request it decides. */
  datatype Decision =
    | Approving(reviewer: string, reviewerNote: string, catalogModelId: string)
    | Rejecting(reviewer: string, reviewerNote: string)

  function Decided(r: Request, d: Decision): Request {
    match d
    case Approving(who, note, catalog) =>
      r.(status := Approved, reviewedBy := who, reviewerNote := note, catalogModelId := catalog)
    case Rejecting(who, note) => r.(status := Rejected, reviewedBy := who, reviewerNote := note)
  }

  function RequestUpdate(rs: Requests, id: string, d: Decision): Result<Request> {
    if id in rs then Ok(Decided(rs[id], d)) else Err(REQUEST_NOT_FOUND)
  }

  function Write(rs: Requests, id: string, r: Result<Request>): Requests {
    if r.Ok? then rs[id := r.value] else rs
  }

  // ----- the operations ----------------------------------------------------

  datatype OpenRequest = OpenRequest(privateModelId: string, targetName: string, targetCollectionId: string, note: string)

  datatype Op =
    | Hub(hub: ModelHub.Op)
    | Open(open: OpenRequest, id: string)
    | Approve(rid: string, note: string, id: string)
    | Reject(rid: string, note: string)
    | Withdraw(rid: string)

  datatype Outcome = Outcome(models: Store, requests: Requests, reply: Result<Request>)

  function CanWriteNamespace(u: User, ns: string): Result<bool> {
    if u.admin then Ok(true) else if ns in u.may then Ok(u.may[ns]) else Err("authorizer failed")
  }

  function Draft(models: Store, u: Option<User>, q: OpenRequest, id: string): Result<Request> {
    if u.None? then Err(FORBIDDEN)
    else if q.privateModelId == "" then Err("privateModelId is required")
    else if q.targetName == "" then Err("targetName is required")
    else
      match PrivateSnapshot(models, u, q.privateModelId)
      case Err(e) => Err(e)
      case Ok(snap) =>
        if !IsPublicURI(snap.uri) then Err("model URI is not publicly accessible")
        else if snap.namespace_ == "" then Err("only namespace-scoped (private) models may be published")
        else
          match CanWriteNamespace(u.value, snap.namespace_)
          case Err(e) => Err(e)
          case Ok(may) =>
            if !may then Err(FORBIDDEN)
            else Ok(Request(id, snap.id, snap.namespace_, snap.name, snap.uri, q.targetName, q.targetCollectionId,
                            u.value.name, q.note, Pending, "", "", ""))
  }

  function OpenOne(models: Store, rs: Requests, u: Option<User>, q: OpenRequest, id: string): Outcome {
    var d := Draft(models, u, q, id);
    var reply := if d.Ok? then RequestCreate(rs, d.value) else d;
    Outcome(models, Write(rs, id, reply), reply)
  }

  /** The opening of both reviews: an admin, looking at a pending request. */
  function ReadForReview(rs: Requests, u: Option<User>, rid: string): Result<Request> {
    if u.None? || !u.value.admin then Err(FORBIDDEN)
    else if rid !in rs then Err(REQUEST_NOT_FOUND)
    else if !rs[rid].status.Pending? then Err("only pending requests can be reviewed")
    else Ok(rs[rid])
  }

  function CopyOf(r: Request, snap: Snapshot): PublishCopy {
    PublishCopy(r.targetName, snap.owner, snap.uri, snap.tags, snap.modelType, snap.sizeGB, snap.readme,
                r.targetCollectionId, snap.sourceUrl)
  }

  function ApproveOne(models: Store, rs: Requests, u: Option<User>, rid: string, note: string, id: string): Outcome {
    match ReadForReview(rs, u, rid)
    case Err(e) => Outcome(models, rs, Err(e))
    case Ok(current) =>
      match PrivateSnapshot(models, u, current.privateModelId)
      case Err(e) => Outcome(models, rs, Err("fetch private model: " + e))
      case Ok(snap) =>
        var made := PublicCopy(models, u, CopyOf(current, snap), id);
        if made.Err? then Outcome(models, rs, Err("create public model: " + made.error))
        else
          var reply := RequestUpdate(rs, rid, Approving(u.value.name, note, made.value.id));
          Outcome(Put(models, made), Write(rs, rid, reply), reply)
  }

  function RejectOne(models: Store, rs: Requests, u: Option<User>, rid: string, note: string): Outcome {
    match ReadForReview(rs, u, rid)
    case Err(e) => Outcome(models, rs, Err(e))
    case Ok(_) =>
      var reply := RequestUpdate(rs, rid, Rejecting(u.value.name, note));
      Outcome(models, Write(rs, rid, reply), reply)
  }

  function WithdrawOne(models: Store, rs: Requests, u: Option<User>, rid: string): Outcome {
    if u.None? then Outcome(models, rs, Err(FORBIDDEN))
    else if rid !in rs then Outcome(models, rs, Err(REQUEST_NOT_FOUND))
    else if !u.value.admin && (rs[rid].requestedBy != u.value.name || !rs[rid].status.Pending?) then
      Outcome(models, rs, Err(FORBIDDEN))
    else Outcome(models, rs - {rid}, Ok(rs[rid]))
  }

  function Perform(models: Store, rs: Requests, u: Option<User>, op: Op): Outcome {
    match op
    case Hub(h) => Outcome(ModelHub.Apply(models, u, h), rs, Err("not a request operation"))
    case Open(q, id) => OpenOne(models, rs, u, q, id)
    case Approve(rid, note, id) => ApproveOne(models, rs, u, rid, note, id)
    case Reject(rid, note) => RejectOne(models, rs, u, rid, note)
    case Withdraw(rid) => WithdrawOne(models, rs, u, rid)
  }

  // ----- histories ---------------------------------------------------------

  /** Both stores, and every identity handed out so far. */
  datatype State = State(models: Store, requests: Requests, minted: set<string>)

  datatype Call = Call(user: Option<User>, op: Op)

  function MintedBy(op: Op): Option<string> {
    match op
    case Hub(h) => if Mints(h) then Some(h.id) else None
    case Open(_, id) => Some(id)
    case Approve(_, _, id) => Some(id)
    case _ => None
  }

  /** The random identity an operation draws is non-empty and new. */
  predicate FreshFor(s: State, op: Op) {
    MintedBy(op).Some? ==> MintedBy(op).value != "" && MintedBy(op).value !in s.minted
  }

  function Mint(s: State, op: Op): set<string> {
    if MintedBy(op).Some? then s.minted + {MintedBy(op).value} else s.minted
  }

  function Next(s: State, c: Call): State {
    var o := Perform(s.models, s.requests, c.user, c.op);
    State(o.models, o.requests, Mint(s, c.op))
  }

  predicate FreshRun(s: State, calls: seq<Call>)
    decreases |calls|
  {
    calls != [] ==> FreshFor(s, calls[0].op) && FreshRun(Next(s, calls[0]), calls[1..])
  }

  function Run(s: State, calls: seq<Call>): State
    decreases |calls|
  {
    if calls == [] then s else Run(Next(s, calls[0]), calls[1..])
  }

  /** A newly started hub: a consistent catalogue and no requests. */
  ghost predicate Start(s: State) {
    s.requests == map[] && ModelHub.Inv(s.models) && s.models.Keys <= s.minted && "" !in s.minted
  }

  // ----- the invariants ----------------------------------------------------

  /** The private model a request was opened for, as long as it exists. */
  predicate SourceMatches(models: Store, r: Request) {
    r.privateModelId in models ==>
      var m := models[r.privateModelId];
      m.scope.Private? && m.uri == r.privateUri && m.namespace_ == r.privateNamespace && m.name == r.privateName
  }

  /** The catalogue model a request led to, as long as it exists. */
  predicate CopyMatches(models: Store, r: Request) {
    r.status.Approved? && r.catalogModelId in models ==>
      var m := models[r.catalogModelId];
      m.scope.Public? && m.namespace_ == "" && m.name == r.targetName && m.uri == r.privateUri
  }

  predicate RequestOk(s: State, r: Request) {
    && r.targetName != "" && IsPublicURI(r.privateUri) && ParseScheme(r.privateUri).Ok?
    && r.privateModelId in s.minted
    && (r.catalogModelId != "" <==> r.status.Approved?)
    && (r.status.Approved? ==> r.catalogModelId in s.minted)
    && SourceMatches(s.models, r) && CopyMatches(s.models, r)
  }

  ghost predicate AllOk(s: State) {
    forall id :: id in s.requests ==> s.requests[id].id == id && id in s.minted && RequestOk(s, s.requests[id])
  }

  /** Two pending requests for one private model. */
  predicate BothPending(a: Request, b: Request) {
    a.status.Pending? && b.status.Pending? && a.privateModelId == b.privateModelId
  }

  /** An approved request and another that names the same catalogue model. */
  predicate ShareCopy(a: Request, b: Request) {
    a.status.Approved? && a.catalogModelId == b.catalogModelId
  }

  ghost predicate OnePending(rs: Requests) {
    forall a, b :: a in rs && b in rs && BothPending(rs[a], rs[b]) ==> a == b
  }

  ghost predicate OwnCatalog(rs: Requests) {
    forall a, b :: a in rs && b in rs && ShareCopy(rs[a], rs[b]) ==> a == b
  }

  ghost predicate Inv(s: State) {
    && ModelHub.Inv(s.models) && s.models.Keys <= s.minted && "" !in s.minted
    && AllOk(s) && OnePending(s.requests) && OwnCatalog(s.requests)
  }

  /** Changing the hub under fixed requests keeps every request truthful. */
  lemma HubKeepsInv(s: State, u: Option<User>, op: ModelHub.Op)
    requires Inv(s) && FreshFor(s, Hub(op))
    ensures Inv(Next(s, Call(u, Hub(op))))
  {
    var t := Next(s, Call(u, Hub(op)));
    ModelHub.ApplyKeepsInv(s.models, u, op);
    if Mints(op) && Answer(s.models, u, op).Ok? {
      AnswerIsNew(s.models, u, op);
    }
    forall id | id in s.requests
      ensures RequestOk(t, s.requests[id])
    {
      var r := s.requests[id];
      SurvivorIsOld(s, u, op, r.privateModelId);
      if r.status.Approved? {
        SurvivorIsOld(s, u, op, r.catalogModelId);
      }
    }
  }

  /** A known identity still in the store afterwards names the model it named. */
  lemma SurvivorIsOld(s: State, u: Option<User>, op: ModelHub.Op, id: string)
    requires ModelHub.Inv(s.models) && FreshFor(s, Hub(op)) && s.models.Keys <= s.minted && id in s.minted
    ensures var t := ModelHub.Apply(s.models, u, op);
            id in t ==> id in s.models && SameIdentity(s.models[id], t[id])
  {
    var t := ModelHub.Apply(s.models, u, op);
    if Mints(op) && Answer(s.models, u, op).Ok? {
      AnswerIsNew(s.models, u, op);
    }
    if id in t {
      IdentityIsFixed(s.models, u, op, id);
    }
  }

  lemma DraftIsOk(s: State, u: Option<User>, q: OpenRequest, id: string)
    requires Inv(s) && Draft(s.models, u, q, id).Ok?
    ensures var r := Draft(s.models, u, q, id).value;
            RequestOk(s, r) && r.status.Pending? && r.id == id && r.privateModelId == q.privateModelId
            && r.privateModelId in s.models
  {
  }

  /** Storing a drafted request, or finding it refused. */
  lemma StoringKeepsInv(s: State, r: Request)
    requires Inv(s) && RequestOk(s, r) && r.status.Pending? && r.id in s.minted && r.id !in s.requests
    ensures Inv(s.(requests := Write(s.requests, r.id, RequestCreate(s.requests, r))))
  {
    if RequestCreate(s.requests, r).Ok? {
      assert forall a :: a in s.requests ==> !PendingFor(s.requests[a], r.privateModelId);
    }
  }

  lemma OpenKeepsInv(s: State, u: Option<User>, q: OpenRequest, id: string)
    requires Inv(s) && FreshFor(s, Open(q, id))
    ensures Inv(Next(s, Call(u, Open(q, id))))
  {
    var d := Draft(s.models, u, q, id);
    MoreMinted(s, id);
    if d.Ok? {
      DraftIsOk(s, u, q, id);
      StoringKeepsInv(s.(minted := s.minted + {id}), d.value);
    }
  }

  /** The four steps of an approval succeed together exactly when an admin
      approves a pending request whose private model is still there and whose
      target name is free. */
  lemma ApprovalProgress(s: State, u: Option<User>, rid: string, note: string, id: string)
    requires Inv(s)
    ensures ApproveOne(s.models, s.requests, u, rid, note, id).reply.Ok?
            <==> u.Some? && u.value.admin && rid in s.requests && s.requests[rid].status.Pending?
                 && s.requests[rid].privateModelId in s.models && !NameTaken(s.models, s.requests[rid].targetName)
  {
    if rid in s.requests && s.requests[rid].privateModelId in s.models {
      var r := s.requests[rid];
      assert RequestOk(s, r);
      if u.Some? && u.value.admin && r.status.Pending? {
        var snap := PrivateSnapshot(s.models, u, r.privateModelId).value;
        ClashIsName(s.models, CatalogModel(CopyOf(r, snap), ParseScheme(snap.uri).value, id));
      }
    }
  }

  ghost predicate NameTaken(models: Store, name: string) {
    exists id :: id in models && models[id].scope.Public? && models[id].namespace_ == "" && models[id].name == name
  }

  lemma ClashIsName(models: Store, m: Model)
    requires m.scope.Public? && m.namespace_ == ""
    ensures Clashes(models, m) <==> NameTaken(models, m.name)
  {
    if Clashes(models, m) {
      var id :| id in models && SameSlot(models[id], m);
    }
    if NameTaken(models, m.name) {
      var id :| id in models && models[id].scope.Public? && models[id].namespace_ == "" && models[id].name == m.name;
      assert SameSlot(models[id], m);
    }
  }

  predicate Named(rs: Requests, catalog: string) {
    exists id | id in rs :: rs[id].catalogModelId == catalog
  }

  /** A new public model under a fresh identity disturbs no request. */
  lemma CatalogueKeepsInv(s: State, m: Model)
    requires Inv(s) && m.id !in s.minted && m.id != "" && m.scope.Public? && !Clashes(s.models, m)
    ensures Inv(State(s.models[m.id := m], s.requests, s.minted + {m.id})) && !Named(s.requests, m.id)
  {
    PutKeepsInv(s.models, m);
    assert forall id :: id in s.requests ==> RequestOk(s, s.requests[id]);
  }

  /** Approving a request that is still pending, for a catalogue identity no
      other request names. */
  lemma ApprovingKeepsInv(s: State, rid: string, who: string, note: string, catalog: string)
    requires Inv(s) && rid in s.requests && s.requests[rid].status.Pending?
    requires catalog in s.minted && !Named(s.requests, catalog)
    requires CopyMatches(s.models, Decided(s.requests[rid], Approving(who, note, catalog)))
    ensures Inv(s.(requests := s.requests[rid := Decided(s.requests[rid], Approving(who, note, catalog))]))
  {
    var r := Decided(s.requests[rid], Approving(who, note, catalog));
    var t := s.(requests := s.requests[rid := r]);
    assert RequestOk(s, s.requests[rid]);
    assert forall id :: id in s.requests ==> s.requests[id].catalogModelId != catalog;
    assert RequestOk(t, r);
  }

  lemma RejectingKeepsInv(s: State, rid: string, who: string, note: string)
    requires Inv(s) && rid in s.requests && s.requests[rid].status.Pending?
    ensures Inv(s.(requests := s.requests[rid := Decided(s.requests[rid], Rejecting(who, note))]))
  {
    var r := Decided(s.requests[rid], Rejecting(who, note));
    assert RequestOk(s, s.requests[rid]);
    assert RequestOk(s.(requests := s.requests[rid := r]), r);
  }

  /** An approval that succeeds adds one public model and decides its request. */
  lemma SnapshotIs(models: Store, u: Option<User>, id: string)
    requires PrivateSnapshot(models, u, id).Ok?
    ensures id in models && models[id].scope.Private?
    ensures var m := models[id];
            PrivateSnapshot(models, u, id).value
            == Snapshot(m.id, m.name, m.owner, m.namespace_, m.uri, m.modelType, m.sizeGB, m.tags, m.readme, m.sourceUrl)
  {
  }

  /** The four steps of an approval that succeeds, in one. */
  lemma ApproveMakes(s: State, u: Option<User>, rid: string, note: string, id: string)
    returns (snap: Snapshot, scheme: Scheme)
    requires ApproveOne(s.models, s.requests, u, rid, note, id).reply.Ok?
    ensures u.Some? && rid in s.requests
    ensures PrivateSnapshot(s.models, u, s.requests[rid].privateModelId) == Ok(snap)
    ensures ParseScheme(snap.uri) == Ok(scheme)
    ensures var n, d := CatalogModel(CopyOf(s.requests[rid], snap), scheme, id),
                        Decided(s.requests[rid], Approving(u.value.name, note, id));
            && !Clashes(s.models, n)
            && ApproveOne(s.models, s.requests, u, rid, note, id)
               == Outcome(s.models[id := n], s.requests[rid := d], Ok(d))
  {
    snap := PrivateSnapshot(s.models, u, s.requests[rid].privateModelId).value;
    scheme := ParseScheme(snap.uri).value;
  }

  lemma ApproveWrites(s: State, u: Option<User>, rid: string, note: string, id: string)
    requires Inv(s) && ApproveOne(s.models, s.requests, u, rid, note, id).reply.Ok?
    ensures var o := ApproveOne(s.models, s.requests, u, rid, note, id);
            var r := s.requests[rid];
            && id in o.models && o.models == s.models[id := o.models[id]]
            && o.models[id].scope.Public? && o.models[id].namespace_ == "" && o.models[id].name == r.targetName
            && o.models[id].uri == r.privateUri && !Clashes(s.models, o.models[id])
            && o.reply == Ok(Decided(r, Approving(u.value.name, note, id)))
            && o.requests == s.requests[rid := o.reply.value]
  {
    var snap, scheme := ApproveMakes(s, u, rid, note, id);
    SnapshotIs(s.models, u, s.requests[rid].privateModelId);
    assert RequestOk(s, s.requests[rid]);
  }

  /** What an approval that succeeds leaves behind, field by field: one public
      model under the target name, with everything else the private model has, and
      the request, decided and naming it. */
  lemma ApproveEffect(s: State, u: Option<User>, rid: string, note: string, id: string)
    requires Inv(s) && ApproveOne(s.models, s.requests, u, rid, note, id).reply.Ok?
    ensures var o := ApproveOne(s.models, s.requests, u, rid, note, id);
            var r := s.requests[rid];
            && r.privateModelId in s.models && id in o.models && o.models == s.models[id := o.models[id]]
            && var m, n := s.models[r.privateModelId], o.models[id];
               && n.id == id && n.scope.Public? && n.namespace_ == "" && n.name == r.targetName && n.uri == m.uri == r.privateUri
               && n.scheme == m.scheme && n.owner == m.owner && n.sizeGB == m.sizeGB && n.downloads == 0
               && n.collectionId == r.targetCollectionId && n.parentModelId == n.derivedKind == ""
               && n.tags == (if "published" in m.tags then m.tags else m.tags + ["published"])
               && n.modelType == (if m.modelType != "" then m.modelType else "llm")
               && n.readme == (if m.readme != "" then m.readme
                               else "# " + r.targetName + "\n\n_Published from a private model via knaic._")
               && n.sourceUrl == (if m.sourceUrl != "" then m.sourceUrl else PublicSourceURL(m.uri))
    ensures var o := ApproveOne(s.models, s.requests, u, rid, note, id);
            && rid in o.requests && o.requests == s.requests[rid := o.requests[rid]] && o.reply == Ok(o.requests[rid])
            && var r, q := s.requests[rid], o.requests[rid];
               && q.status.Approved? && q.reviewedBy == u.value.name && q.reviewerNote == note && q.catalogModelId == id
               && Untouched(r, q)
  {
    var snap, scheme := ApproveMakes(s, u, rid, note, id);
    SnapshotIs(s.models, u, s.requests[rid].privateModelId);
    assert RequestOk(s, s.requests[rid]);
  }

  /** A decision leaves what was asked for as it is. */
  predicate Untouched(r: Request, q: Request) {
    && q.id == r.id && q.privateModelId == r.privateModelId && q.privateNamespace == r.privateNamespace
    && q.privateName == r.privateName && q.privateUri == r.privateUri && q.targetName == r.targetName
    && q.targetCollectionId == r.targetCollectionId && q.requestedBy == r.requestedBy && q.note == r.note
  }

  /** A rejection succeeds exactly for an admin and a pending request. */
  lemma RejectEffect(s: State, u: Option<User>, rid: string, note: string)
    ensures var o := RejectOne(s.models, s.requests, u, rid, note);
            && (o.reply.Ok? <==> u.Some? && u.value.admin && rid in s.requests && s.requests[rid].status.Pending?)
            && o.models == s.models && (o.reply.Err? ==> o.requests == s.requests)
            && (o.reply.Ok? ==>
                  && rid in o.requests && o.requests == s.requests[rid := o.requests[rid]] && o.reply == Ok(o.requests[rid])
                  && var r, q := s.requests[rid], o.requests[rid];
                     && q.status.Rejected? && q.reviewedBy == u.value.name && q.reviewerNote == note
                     && q.catalogModelId == r.catalogModelId && Untouched(r, q))
  {
  }

  /** A withdrawal succeeds exactly for an admin, or for the requester while the
      request is pending, and removes that request alone. */
  lemma WithdrawEffect(s: State, u: Option<User>, rid: string)
    ensures var o := WithdrawOne(s.models, s.requests, u, rid);
            && (o.reply.Ok? <==>
                  u.Some? && rid in s.requests
                  && (u.value.admin || (s.requests[rid].requestedBy == u.value.name && s.requests[rid].status.Pending?)))
            && o.models == s.models && o.requests == (if o.reply.Ok? then s.requests - {rid} else s.requests)
  {
  }

  /** A request can be opened exactly for a stored private model in a namespace
      the user may write, with a public address, no other request pending for it,
      under a target name. */
  lemma OpenProgress(s: State, u: Option<User>, q: OpenRequest, id: string)
    requires Inv(s)
    ensures OpenOne(s.models, s.requests, u, q, id).reply.Ok?
            <==> && u.Some? && q.privateModelId != "" && q.targetName != "" && q.privateModelId in s.models
                 && (var m := s.models[q.privateModelId];
                     && m.scope.Private? && m.namespace_ != ""
                     && (u.value.admin || (m.namespace_ in u.value.may && u.value.may[m.namespace_]))
                     && ("hf://" <= m.uri || "hf-mirror://" <= m.uri || "modelscope://" <= m.uri || "http://" <= m.uri
                         || "https://" <= m.uri))
                 && id !in s.requests
                 && (forall r :: r in s.requests ==>
                       !(s.requests[r].status.Pending? && s.requests[r].privateModelId == q.privateModelId))
  {
    assert HasPending(s.requests, q.privateModelId)
           <==> exists r :: r in s.requests && PendingFor(s.requests[r], q.privateModelId);
  }

  /** And then exactly this request is stored. */
  lemma OpenEffect(s: State, u: Option<User>, q: OpenRequest, id: string)
    requires Inv(s) && OpenOne(s.models, s.requests, u, q, id).reply.Ok?
    ensures var o := OpenOne(s.models, s.requests, u, q, id);
            && o.models == s.models && id in o.requests && o.requests == s.requests[id := o.requests[id]]
            && o.reply == Ok(o.requests[id]) && q.privateModelId in s.models
            && var r, m := o.requests[id], s.models[q.privateModelId];
               && r.id == id && r.privateModelId == q.privateModelId && r.privateNamespace == m.namespace_
               && r.privateName == m.name && r.privateUri == m.uri && r.targetName == q.targetName
               && r.targetCollectionId == q.targetCollectionId && r.requestedBy == u.value.name && r.note == q.note
               && r.status.Pending? && r.reviewedBy == r.reviewerNote == r.catalogModelId == ""
  {
  }

  /** An opening that is refused changes nothing, and this is what it says. */
  lemma OpenRefused(s: State, u: Option<User>, q: OpenRequest, id: string)
    requires Inv(s) && OpenOne(s.models, s.requests, u, q, id).reply.Err?
    ensures var o := OpenOne(s.models, s.requests, u, q, id);
            o == Outcome(s.models, s.requests, Err(
              if u.None? then "forbidden"
              else if q.privateModelId == "" then "privateModelId is required"
              else if q.targetName == "" then "targetName is required"
              else if q.privateModelId !in s.models then "model not found"
              else
                var m := s.models[q.privateModelId];
                if !m.scope.Private? then "only private models can be published"
                else if !u.value.admin && m.namespace_ == "" then "namespace required for private scope"
                else if !u.value.admin && m.namespace_ !in u.value.may then "authorizer failed"
                else if !u.value.admin && !u.value.may[m.namespace_] then "forbidden"
                else if !IsPublicURI(m.uri) then "model URI is not publicly accessible"
                else if m.namespace_ == "" then "only namespace-scoped (private) models may be published"
                else "publish request already exists"))
  {
  }

  /** Why a request is not up for this user's review; blank if it is. */
  function WhyNotReview(rs: Requests, u: Option<User>, rid: string): (why: string)
    ensures why == "" ==> rid in rs
  {
    if u.None? || !u.value.admin then "forbidden"
    else if rid !in rs then "publish request not found"
    else if rs[rid].status.Pending? then ""
    else "only pending requests can be reviewed"
  }

  lemma ReadRefused(rs: Requests, u: Option<User>, rid: string)
    ensures var why := WhyNotReview(rs, u, rid);
            ReadForReview(rs, u, rid) == if why == "" then Ok(rs[rid]) else Err(why)
  {
  }

  /** An approval is refused for the reviewer, the request, the private model, or
      the name, and for nothing else. */
  lemma ApproveRefused(s: State, u: Option<User>, rid: string, note: string, id: string)
    requires Inv(s) && ApproveOne(s.models, s.requests, u, rid, note, id).reply.Err?
    ensures var why := WhyNotReview(s.requests, u, rid);
            ApproveOne(s.models, s.requests, u, rid, note, id)
            == Outcome(s.models, s.requests, Err(
                 if why != "" then why
                 else if s.requests[rid].privateModelId !in s.models then "fetch private model: " + "model not found"
                 else "create public model: " + "model already exists"))
  {
    ReadRefused(s.requests, u, rid);
    if WhyNotReview(s.requests, u, rid) == "" {
      CopyNeeded(s, u, rid, note, id);
    }
  }

  lemma CopyNeeded(s: State, u: Option<User>, rid: string, note: string, id: string)
    requires Inv(s) && ApproveOne(s.models, s.requests, u, rid, note, id).reply.Err?
    requires u.Some? && u.value.admin && rid in s.requests && s.requests[rid].status.Pending?
    ensures ApproveOne(s.models, s.requests, u, rid, note, id)
            == Outcome(s.models, s.requests, Err(
                 if s.requests[rid].privateModelId !in s.models then "fetch private model: " + "model not found"
                 else "create public model: " + "model already exists"))
  {
    var r := s.requests[rid];
    assert RequestOk(s, r);
    if r.privateModelId in s.models {
      CopyRefused(s, u, r);
      var snap := PrivateSnapshot(s.models, u, r.privateModelId).value;
      assert PublicCopy(s.models, u, CopyOf(r, snap), id).Err?;
    }
  }

  /** A request that is up for review has a copy to make of its model, unless the
      name is taken. */
  lemma CopyRefused(s: State, u: Option<User>, r: Request)
    requires RequestOk(s, r) && SourceMatches(s.models, r) && u.Some? && u.value.admin && r.privateModelId in s.models
    ensures var snap := PrivateSnapshot(s.models, u, r.privateModelId);
            snap.Ok? && forall id :: PublicCopy(s.models, u, CopyOf(r, snap.value), id).Err? ==>
                          PublicCopy(s.models, u, CopyOf(r, snap.value), id) == Err("model already exists")
  {
  }

  lemma RejectRefused(s: State, u: Option<User>, rid: string, note: string)
    requires RejectOne(s.models, s.requests, u, rid, note).reply.Err?
    ensures RejectOne(s.models, s.requests, u, rid, note)
            == Outcome(s.models, s.requests, Err(WhyNotReview(s.requests, u, rid)))
  {
    ReadRefused(s.requests, u, rid);
  }

  lemma WithdrawRefused(s: State, u: Option<User>, rid: string)
    requires WithdrawOne(s.models, s.requests, u, rid).reply.Err?
    ensures WithdrawOne(s.models, s.requests, u, rid)
            == Outcome(s.models, s.requests, Err(
                 if u.Some? && rid !in s.requests then "publish request not found" else "forbidden"))
  {
  }

  lemma PublishingKeepsInv(s: State, m: Model, rid: string, who: string, note: string)
    requires Inv(s) && m.id !in s.minted && m.id != "" && m.scope.Public? && m.namespace_ == "" && !Clashes(s.models, m)
    requires rid in s.requests && s.requests[rid].status.Pending?
    requires m.name == s.requests[rid].targetName && m.uri == s.requests[rid].privateUri
    ensures Inv(State(s.models[m.id := m], s.requests[rid := Decided(s.requests[rid], Approving(who, note, m.id))],
                      s.minted + {m.id}))
  {
    CatalogueKeepsInv(s, m);
    ApprovingKeepsInv(State(s.models[m.id := m], s.requests, s.minted + {m.id}), rid, who, note, m.id);
  }

  lemma ApproveKeepsInv(s: State, u: Option<User>, rid: string, note: string, id: string)
    requires Inv(s) && FreshFor(s, Approve(rid, note, id))
    ensures Inv(Next(s, Call(u, Approve(rid, note, id))))
  {
    var n := Next(s, Call(u, Approve(rid, note, id)));
    ApproveChanges(s, u, rid, note, id, n);
    if n.requests == s.requests {
      MoreMinted(s, id);
    } else {
      PublishingKeepsInv(s, n.models[id], rid, u.value.name, note);
    }
  }

  /** An approval changes nothing, or everything it should. */
  lemma ApproveChanges(s: State, u: Option<User>, rid: string, note: string, id: string, n: State)
    requires Inv(s) && FreshFor(s, Approve(rid, note, id)) && n == Next(s, Call(u, Approve(rid, note, id)))
    ensures n.requests == s.requests ==> n == s.(minted := s.minted + {id})
    ensures n.requests != s.requests ==>
              && u.Some? && rid in s.requests && s.requests[rid].status.Pending? && id in n.models
              && var m := n.models[id];
                 m.id == id && m.scope.Public? && m.namespace_ == "" && !Clashes(s.models, m)
                 && m.name == s.requests[rid].targetName && m.uri == s.requests[rid].privateUri
                 && n == State(s.models[id := m], s.requests[rid := Decided(s.requests[rid], Approving(u.value.name, note, id))],
                               s.minted + {id})
  {
    if ApproveOne(s.models, s.requests, u, rid, note, id).reply.Ok? {
      ApproveWrites(s, u, rid, note, id);
    }
  }

  lemma MoreMinted(s: State, id: string)
    requires Inv(s) && id != ""
    ensures Inv(s.(minted := s.minted + {id}))
  {
    assert forall r :: r in s.requests ==> RequestOk(s, s.requests[r]);
  }

  lemma NextKeepsInv(s: State, c: Call)
    requires Inv(s) && FreshFor(s, c.op)
    ensures Inv(Next(s, c))
  {
    match c.op {
      case Hub(h) => HubKeepsInv(s, c.user, h);
      case Open(q, id) => OpenKeepsInv(s, c.user, q, id);
      case Approve(rid, note, id) => ApproveKeepsInv(s, c.user, rid, note, id);
      case Reject(rid, note) =>
        if ReadForReview(s.requests, c.user, rid).Ok? {
          RejectingKeepsInv(s, rid, c.user.value.name, note);
        }
      case Withdraw(rid) =>
    }
  }

  lemma {:induction false} RunKeepsInv(s: State, calls: seq<Call>)
    requires Inv(s) && FreshRun(s, calls)
    ensures Inv(Run(s, calls))
    decreases |calls|
  {
    if calls != [] {
      NextKeepsInv(s, calls[0]);
      RunKeepsInv(Next(s, calls[0]), calls[1..]);
    }
  }

  /** After any history of calls, by anybody, with fresh identities: model slots
      are unique; no private model has two pending requests; a catalogue identity
      is set exactly on approved requests and never shared; a request still quotes
      its private model's address, and an approved one its copy's. */
  lemma WholeRun(s: State, calls: seq<Call>)
    requires Start(s) && FreshRun(s, calls)
    ensures var t := Run(s, calls);
            && (forall a, b :: a in t.models && b in t.models && SameSlot(t.models[a], t.models[b]) ==> a == b)
            && (forall a, b :: a in t.requests && b in t.requests && BothPending(t.requests[a], t.requests[b]) ==> a == b)
            && (forall a :: a in t.requests ==> var r := t.requests[a];
                  (r.catalogModelId != "" <==> r.status.Approved?)
                  && SourceMatches(t.models, r) && CopyMatches(t.models, r))
            && (forall a, b :: a in t.requests && b in t.requests && ShareCopy(t.requests[a], t.requests[b]) ==> a == b)
  {
    RunKeepsInv(s, calls);
    var t := Run(s, calls);
    assert forall a :: a in t.requests ==> RequestOk(t, t.requests[a]);
  }

  /** In every state a history reaches, an admin's approval of a pending request
      whose private model still exists fails only on a taken name. */
  lemma ReachableProgress(s: State, calls: seq<Call>, u: User, rid: string, note: string, id: string)
    requires Start(s) && FreshRun(s, calls) && u.admin
    requires var t := Run(s, calls);
             rid in t.requests && t.requests[rid].status.Pending? && t.requests[rid].privateModelId in t.models
    ensures var t := Run(s, calls);
            ApproveOne(t.models, t.requests, Some(u), rid, note, id).reply.Ok?
            <==> !NameTaken(t.models, t.requests[rid].targetName)
  {
    RunKeepsInv(s, calls);
    ApprovalProgress(Run(s, calls), Some(u), rid, note, id);
  }

  /** `rid` was decided as `r`: it is still that, or gone, and can not come back. */
  predicate StaysDecided(s: State, rid: string, r: Request) {
    rid in s.minted && (rid in s.requests ==> s.requests[rid] == r)
  }

  /** Once a request has left pending it never changes again; it can only be
      deleted, and its identity never returns. */
  lemma {:induction false} DecidedForGood(s: State, calls: seq<Call>, rid: string, r: Request)
    requires FreshRun(s, calls) && !r.status.Pending? && StaysDecided(s, rid, r)
    ensures StaysDecided(Run(s, calls), rid, r)
    decreases |calls|
  {
    if calls != [] {
      DecidedForGood(Next(s, calls[0]), calls[1..], rid, r);
    }
  }

  // ----- the live store and service ----------------------------------------

  class RequestStore {
    var items: map<string, Request>

    constructor ()
      ensures items == map[]
    {
      items := map[];
    }

    method Create(r: Request) returns (reply: Result<Request>)
      modifies this
      ensures reply == RequestCreate(old(items), r)
      ensures items == Write(old(items), r.id, reply)
    {
      if r.id in items {
        return Err(REQUEST_CONFLICT);
      }
      var left := items.Keys;
      while left != {}
        invariant left <= items.Keys && items == old(items)
        invariant forall id :: id in items.Keys - left ==> !PendingFor(items[id], r.privateModelId)
      {
        var id :| id in left;
        if items[id].privateModelId == r.privateModelId && items[id].status.Pending? {
          return Err(REQUEST_CONFLICT);
        }
        left := left - {id};
      }
      items := items[r.id := r];
      reply := Ok(r);
    }

    method Update(id: string, d: Decision) returns (reply: Result<Request>)
      modifies this
      ensures reply == RequestUpdate(old(items), id, d)
      ensures items == Write(old(items), id, reply)
    {
      if id !in items {
        return Err(REQUEST_NOT_FOUND);
      }
      var r := Decided(items[id], d);
      items := items[id := r];
      reply := Ok(r);
    }
  }

  class Service {
    const store: RequestStore
    const models: ModelHub.Service

    constructor (store: RequestStore, models: ModelHub.Service)
      ensures this.store == store && this.models == models
    {
      this.store, this.models := store, models;
    }

    ghost function Expected(u: Option<User>, op: Op): Outcome
      reads store, models.store
    {
      Perform(models.store.items, store.items, u, op)
    }

    method Create(u: Option<User>, q: OpenRequest, id: string) returns (reply: Result<Request>)
      modifies store
      ensures Outcome(models.store.items, store.items, reply) == old(Expected(u, Open(q, id)))
    {
      if u.None? {
        return Err(FORBIDDEN);
      }
      if q.privateModelId == "" {
        return Err("privateModelId is required");
      }
      if q.targetName == "" {
        return Err("targetName is required");
      }
      var got := models.GetPrivateForPublish(u, q.privateModelId);
      if got.Err? {
        return Err(got.error);
      }
      var snap := got.value;
      if !IsPublicURI(snap.uri) {
        return Err("model URI is not publicly accessible");
      }
      if snap.namespace_ == "" {
        return Err("only namespace-scoped (private) models may be published");
      }
      var may := CanWriteNamespace(u.value, snap.namespace_);
      if may.Err? {
        return Err(may.error);
      }
      if !may.value {
        return Err(FORBIDDEN);
      }
      reply := store.Create(Request(id, snap.id, snap.namespace_, snap.name, snap.uri, q.targetName,
                                    q.targetCollectionId, u.value.name, q.note, Pending, "", "", ""));
    }

    method Approve(u: Option<User>, rid: string, note: string, id: string) returns (reply: Result<Request>)
      modifies store, models.store
      ensures Outcome(models.store.items, store.items, reply) == old(Expected(u, Op.Approve(rid, note, id)))
    {
      var current := GetPending(u, rid);
      if current.Err? {
        return current;
      }
      var got := models.GetPrivateForPublish(u, current.value.privateModelId);
      if got.Err? {
        return Err("fetch private model: " + got.error);
      }
      var made := models.CreatePublicFromRequest(u, CopyOf(current.value, got.value), id);
      if made.Err? {
        return Err("create public model: " + made.error);
      }
      reply := store.Update(rid, Approving(u.value.name, note, made.value.id));
    }

    method Reject(u: Option<User>, rid: string, note: string) returns (reply: Result<Request>)
      modifies store
      ensures Outcome(models.store.items, store.items, reply) == old(Expected(u, Op.Reject(rid, note)))
    {
      var current := GetPending(u, rid);
      if current.Err? {
        return current;
      }
      reply := store.Update(rid, Rejecting(u.value.name, note));
    }

    method Delete(u: Option<User>, rid: string) returns (reply: Result<Request>)
      modifies store
      ensures Outcome(models.store.items, store.items, reply) == old(Expected(u, Withdraw(rid)))
    {
      if u.None? {
        return Err(FORBIDDEN);
      }
      if rid !in store.items {
        return Err(REQUEST_NOT_FOUND);
      }
      var current := store.items[rid];
      if !u.value.admin {
        if current.requestedBy != u.value.name || !current.status.Pending? {
          return Err(FORBIDDEN);
        }
      }
      store.items := store.items - {rid};
      reply := Ok(current);
    }

    method GetPending(u: Option<User>, rid: string) returns (reply: Result<Request>)
      ensures reply == ReadForReview(store.items, u, rid)
    {
      if u.None? || !u.value.admin {
        return Err(FORBIDDEN);
      }
      if rid !in store.items {
        return Err(REQUEST_NOT_FOUND);
      }
      var current := store.items[rid];
      if !current.status.Pending? {
        return Err("only pending requests can be reviewed");
      }
      reply := Ok(current);
    }
  }
}
