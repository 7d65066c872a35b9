/** The publish workflow under concurrency: opening, approving, rejecting and
    withdrawing a request are sequences of store calls, and nothing but those
    calls is atomic. */
module ConcurrentApproval {
  import opened Text
  import opened Publish
  import H = ModelHub

  /** Where one call of the workflow stands between two store calls: a review,
      an opening about to store its request, a withdrawal about to delete one. */
  datatype Task =
    | Fetched(u: H.User, note: string, req: Request)
    | Holding(u: H.User, note: string, req: Request, snap: H.Snapshot)
    | Copied(u: H.User, note: string, req: Request, catalog: string)
    | Refusing(u: H.User, note: string, req: Request)
    | Finished(rid: string, reply: Result<Request>)
    | Drafted(req: Request)
    | Leaving(u: H.User, rid: string)
    | Answered(reply: Result<Request>)

  /** A catalogue model created by a review, for the record. */
  datatype Made = Made(pid: nat, rid: string, name: string, id: string)

  /** A request deleted by a withdrawal, as it was found, for the record. */
  datatype Dropped = Dropped(u: H.User, r: Request)

  /** Both stores, every call begun so far, and three records: the catalogue
      models created, the requests written and those withdrawn, in order. */
  datatype World = World(s: State, crew: map<nat, Task>, made: seq<Made>, decided: seq<string>, dropped: seq<Dropped>)

  datatype Event =
    | Begin(pid: nat, u: Option<H.User>, rid: string, note: string, approve: bool)
    | BeginOpen(pid: nat, u: Option<H.User>, q: OpenRequest, id: string)
    | BeginWithdraw(pid: nat, u: Option<H.User>, rid: string)
    | Advance(pid: nat, id: string)
    | Other(c: Call)

  /** Nobody deletes a public model; everything but calls to the hub itself
      happens step by step. */
  predicate Allowed(w: World, e: Event) {
    match e
    case Begin(pid, _, _, _, _) => pid !in w.crew
    case BeginOpen(pid, _, _, id) => pid !in w.crew && id != "" && id !in w.s.minted
    case BeginWithdraw(pid, _, _) => pid !in w.crew
    case Advance(pid, id) => pid in w.crew && (w.crew[pid].Holding? ==> id != "" && id !in w.s.minted)
    case Other(c) => FreshFor(w.s, c.op) && c.op.Hub? && !DropsPublic(w.s.models, c.op)
  }

  predicate DropsPublic(models: H.Store, op: Op) {
    op.Hub? && op.hub.Delete? && op.hub.id in models && models[op.hub.id].scope.Public?
  }

  function Store(w: World, pid: nat, r: Request): World {
    var reply := RequestCreate(w.s.requests, r);
    w.(s := w.s.(requests := Write(w.s.requests, r.id, reply)), crew := w.crew[pid := Answered(reply)])
  }

  function Drop(w: World, pid: nat, u: H.User, rid: string): World {
    var reply := if rid in w.s.requests then Ok(w.s.requests[rid]) else Err(REQUEST_NOT_FOUND);
    w.(s := w.s.(requests := w.s.requests - {rid}), crew := w.crew[pid := Answered(reply)],
       dropped := if rid in w.s.requests then w.dropped + [Dropped(u, w.s.requests[rid])] else w.dropped)
  }

  function Record(w: World, pid: nat, rid: string, d: Decision): World {
    var reply := RequestUpdate(w.s.requests, rid, d);
    w.(s := w.s.(requests := Write(w.s.requests, rid, reply)), crew := w.crew[pid := Finished(rid, reply)],
       decided := if reply.Ok? then w.decided + [rid] else w.decided)
  }

  function Copy(w: World, pid: nat, t: Task, id: string): World
    requires t.Holding?
  {
    Adding(w, pid, t, H.PublicCopy(w.s.models, Some(t.u), CopyOf(t.req, t.snap), id), id)
  }

  /** The catalogue answered `m` to a review's copy. */
  function Adding(w: World, pid: nat, t: Task, m: Result<H.Model>, id: string): World
    requires t.Holding?
  {
    var s := w.s.(models := H.Put(w.s.models, m), minted := w.s.minted + {id});
    if m.Err? then w.(s := s, crew := w.crew[pid := Finished(t.req.id, Err(m.error))])
    else w.(s := s, crew := w.crew[pid := Copied(t.u, t.note, t.req, id)],
            made := w.made + [Made(pid, t.req.id, t.req.targetName, id)])
  }

  function Move(w: World, pid: nat, id: string): (v: World)
    requires pid in w.crew
    ensures v.crew.Keys == w.crew.Keys
  {
    var t := w.crew[pid];
    match t
    case Fetched(u, note, req) =>
      var snap := H.PrivateSnapshot(w.s.models, Some(u), req.privateModelId);
      w.(crew := w.crew[pid := if snap.Ok? then Holding(u, note, req, snap.value) else Finished(req.id, Err(snap.error))])
    case Holding(_, _, _, _) => Copy(w, pid, t, id)
    case Copied(u, note, req, catalog) => Record(w, pid, req.id, Approving(u.name, note, catalog))
    case Refusing(u, note, req) => Record(w, pid, req.id, Rejecting(u.name, note))
    case Drafted(req) => Store(w, pid, req)
    case Leaving(u, rid) => Drop(w, pid, u, rid)
    case Finished(_, _) | Answered(_) => w
  }

  function Step(w: World, e: Event): World
    requires Allowed(w, e)
  {
    match e
    case Begin(pid, u, rid, note, approve) =>
      var r := ReadForReview(w.s.requests, u, rid);
      w.(crew := w.crew[pid := if r.Err? then Finished(rid, r)
                               else if approve then Fetched(u.value, note, r.value)
                               else Refusing(u.value, note, r.value)])
    case BeginOpen(pid, u, q, id) =>
      var d := Draft(w.s.models, u, q, id);
      w.(s := w.s.(minted := w.s.minted + {id}), crew := w.crew[pid := if d.Ok? then Drafted(d.value) else Answered(d)])
    case BeginWithdraw(pid, u, rid) =>
      var r := WithdrawOne(w.s.models, w.s.requests, u, rid).reply;
      w.(crew := w.crew[pid := if r.Ok? then Leaving(u.value, rid) else Answered(r)])
    case Advance(pid, id) => Move(w, pid, id)
    case Other(c) => w.(s := Next(w.s, c))
  }

  predicate AllowedRun(w: World, es: seq<Event>)
    decreases |es|
  {
    es != [] ==> Allowed(w, es[0]) && AllowedRun(Step(w, es[0]), es[1..])
  }

  function Run(w: World, es: seq<Event>): World
    requires AllowedRun(w, es)
    decreases |es|
  {
    if es == [] then w else Run(Step(w, es[0]), es[1..])
  }

  ghost predicate Start(w: World) {
    Publish.Start(w.s) && w.crew == map[] && w.made == [] && w.decided == [] && w.dropped == []
  }

  // ----- what every interleaving keeps -------------------------------------

  predicate IsCatalogue(models: H.Store, id: string, name: string) {
    id in models && models[id].scope.Public? && models[id].namespace_ == "" && models[id].name == name
  }

  ghost predicate MadeOk(w: World) {
    && (forall i :: 0 <= i < |w.made| ==> IsCatalogue(w.s.models, w.made[i].id, w.made[i].name))
    && (forall i, j :: 0 <= i < j < |w.made| ==> w.made[i].id != w.made[j].id)
  }

  /** The written requests are exactly the existing ones that left pending,
      and possibly some since deleted. */
  ghost predicate LogOk(w: World) {
    && (forall r :: r in w.decided ==> r in w.s.minted && (r in w.s.requests ==> !w.s.requests[r].status.Pending?))
    && (forall r :: r in w.s.requests && !w.s.requests[r].status.Pending? ==> r in w.decided)
    && (forall r :: r in w.s.requests ==> r in w.s.minted && w.s.requests[r].id == r)
  }

  /** A drafted request is new everywhere. */
  predicate DraftOk(w: World, r: Request) {
    r.status.Pending? && r.id in w.s.minted && r.id !in w.s.requests && r.id !in w.decided
  }

  predicate SameDraft(a: Task, b: Task) {
    a.Drafted? && b.Drafted? && a.req.id == b.req.id
  }

  ghost predicate DraftsOk(w: World) {
    && (forall p :: p in w.crew && w.crew[p].Drafted? ==> DraftOk(w, w.crew[p].req))
    && (forall p, q :: p in w.crew && q in w.crew && SameDraft(w.crew[p], w.crew[q]) ==> p == q)
  }

  ghost predicate Books(w: World) {
    && H.Inv(w.s.models) && w.s.models.Keys <= w.s.minted && "" !in w.s.minted
    && MadeOk(w) && LogOk(w) && OnePending(w.s.requests)
  }

  ghost predicate Base(w: World) {
    Books(w) && DraftsOk(w)
  }

  /** One call moves along, to something that is not a draft, and no draft's
      identity gets known. */
  lemma DraftsStay(w: World, v: World, pid: nat, t: Task)
    requires DraftsOk(w) && v.crew == w.crew[pid := t] && !t.Drafted? && w.s.minted <= v.s.minted
    requires forall x :: x in v.s.requests ==> x in w.s.requests || (pid in w.crew && w.crew[pid].Drafted? && w.crew[pid].req.id == x)
    requires forall x :: x in v.decided ==> x in w.decided || x in w.s.requests
    ensures DraftsOk(v)
  {
    forall p | p in v.crew && v.crew[p].Drafted?
      ensures DraftOk(v, v.crew[p].req) && p in w.crew && w.crew[p] == v.crew[p]
    {
      assert p != pid && DraftOk(w, w.crew[p].req);
      assert pid in w.crew ==> !SameDraft(w.crew[p], w.crew[pid]);
    }
  }

  /** A call draws a new identity for its draft. */
  lemma DraftJoins(w: World, v: World, pid: nat, r: Request)
    requires DraftsOk(w) && v.crew == w.crew[pid := Drafted(r)] && v.s.requests == w.s.requests && v.decided == w.decided
    requires w.s.minted <= v.s.minted && r.id !in w.s.minted && DraftOk(v, r)
    ensures DraftsOk(v)
  {
    assert forall p :: p in w.crew && w.crew[p].Drafted? ==> DraftOk(w, w.crew[p].req);
  }

  lemma BeginKeepsBase(w: World, e: Event)
    requires Base(w) && Allowed(w, e) && (e.Begin? || e.BeginWithdraw?)
    ensures Base(Step(w, e))
  {
    var v := Step(w, e);
    DraftsStay(w, v, e.pid, v.crew[e.pid]);
  }

  lemma OpeningKeepsBase(w: World, e: Event)
    requires Base(w) && Allowed(w, e) && e.BeginOpen?
    ensures Base(Step(w, e))
  {
    var v := Step(w, e);
    var t := v.crew[e.pid];
    if t.Drafted? {
      DraftJoins(w, v, e.pid, t.req);
    } else {
      DraftsStay(w, v, e.pid, t);
    }
  }

  lemma OtherKeepsBase(w: World, c: Call)
    requires Base(w) && Allowed(w, Other(c))
    ensures Base(Step(w, Other(c)))
  {
    HubKeepsMade(w, c);
    assert forall p :: p in w.crew && w.crew[p].Drafted? ==> DraftOk(w, w.crew[p].req);
  }

  lemma HubKeepsMade(w: World, c: Call)
    requires Books(w) && Allowed(w, Other(c))
    ensures Books(w.(s := Next(w.s, c)))
  {
    var n := Next(w.s, c);
    H.ApplyKeepsInv(w.s.models, c.user, c.op.hub);
    if H.Mints(c.op.hub) && H.Answer(w.s.models, c.user, c.op.hub).Ok? {
      H.AnswerIsNew(w.s.models, c.user, c.op.hub);
    }
    assert n.models.Keys <= n.minted;
    forall i | 0 <= i < |w.made|
      ensures IsCatalogue(n.models, w.made[i].id, w.made[i].name)
    {
      CatalogueStays(w.s, c, w.made[i].id);
    }
  }

  /** Without deletions of public models, a catalogue model stays in place. */
  lemma CatalogueStays(s: State, c: Call, id: string)
    requires H.Inv(s.models) && s.models.Keys <= s.minted && FreshFor(s, c.op)
    requires c.op.Hub? && !DropsPublic(s.models, c.op) && id in s.models && s.models[id].scope.Public?
    ensures id in Next(s, c).models && H.SameIdentity(s.models[id], Next(s, c).models[id])
  {
    if H.Mints(c.op.hub) && H.Answer(s.models, c.user, c.op.hub).Ok? {
      H.AnswerIsNew(s.models, c.user, c.op.hub);
    }
    H.IdentityIsFixed(s.models, c.user, c.op.hub, id);
  }

  lemma AddingKeepsBase(w: World, pid: nat, m: Result<H.Model>, id: string)
    requires Base(w) && pid in w.crew && w.crew[pid].Holding? && id != "" && id !in w.s.minted
    requires m.Ok? ==> IsListed(w.s.models, m.value, w.crew[pid].req, id)
    ensures Base(Adding(w, pid, w.crew[pid], m, id))
  {
    var t := w.crew[pid];
    var v := Adding(w, pid, t, m, id);
    if m.Ok? {
      MadeKeepsBooks(w, m.value, v, pid, t.req.id);
    }
    DraftsStay(w, v, pid, v.crew[pid]);
  }

  /** The model a copy makes for a request, under a free name. */
  predicate IsListed(models: H.Store, m: H.Model, req: Request, id: string) {
    m.id == id && m.scope.Public? && m.namespace_ == "" && m.name == req.targetName && !H.Clashes(models, m)
  }

  lemma CopyKeepsBase(w: World, pid: nat, id: string)
    requires Base(w) && pid in w.crew && w.crew[pid].Holding? && id != "" && id !in w.s.minted
    ensures Base(Copy(w, pid, w.crew[pid], id))
  {
    var t := w.crew[pid];
    CopyIsListed(w.s.models, t, id);
    AddingKeepsBase(w, pid, H.PublicCopy(w.s.models, Some(t.u), CopyOf(t.req, t.snap), id), id);
  }

  lemma CopyIsListed(models: H.Store, t: Task, id: string)
    requires t.Holding?
    ensures var m := H.PublicCopy(models, Some(t.u), CopyOf(t.req, t.snap), id);
            m.Ok? ==> IsListed(models, m.value, t.req, id) && m.value.uri == t.snap.uri
  {
  }

  lemma MadeKeepsBooks(w: World, m: H.Model, v: World, pid: nat, rid: string)
    requires Books(w) && m.id !in w.s.minted && m.id != "" && m.scope.Public? && m.namespace_ == ""
    requires !H.Clashes(w.s.models, m)
    requires v.s.models == w.s.models[m.id := m] && v.s.minted == w.s.minted + {m.id} && v.s.requests == w.s.requests
    requires v.decided == w.decided && v.made == w.made + [Made(pid, rid, m.name, m.id)]
    ensures Books(v)
  {
    H.PutKeepsInv(w.s.models, m);
    forall i | 0 <= i < |v.made|
      ensures IsCatalogue(v.s.models, v.made[i].id, v.made[i].name)
      ensures i < |w.made| ==> v.made[i] == w.made[i] && v.made[i].id in w.s.models
    {
      if i < |w.made| {
        assert IsCatalogue(w.s.models, w.made[i].id, w.made[i].name);
      }
    }
  }

  lemma WriteKeepsBase(w: World, pid: nat, rid: string, d: Decision)
    requires Base(w)
    ensures Base(Record(w, pid, rid, d))
  {
    var v := Record(w, pid, rid, d);
    DraftsStay(w, v, pid, v.crew[pid]);
  }

  lemma StoreKeepsBase(w: World, pid: nat)
    requires Base(w) && pid in w.crew && w.crew[pid].Drafted?
    ensures Base(Store(w, pid, w.crew[pid].req))
  {
    var r := w.crew[pid].req;
    var v := Store(w, pid, r);
    assert DraftOk(w, r);
    DraftsStay(w, v, pid, v.crew[pid]);
  }

  lemma DropKeepsBase(w: World, pid: nat, u: H.User, rid: string)
    requires Base(w)
    ensures Base(Drop(w, pid, u, rid))
  {
    var v := Drop(w, pid, u, rid);
    DraftsStay(w, v, pid, v.crew[pid]);
  }

  lemma FetchKeepsBase(w: World, pid: nat, id: string)
    requires Base(w) && pid in w.crew && w.crew[pid].Fetched?
    ensures Base(Move(w, pid, id))
  {
    var v := Move(w, pid, id);
    DraftsStay(w, v, pid, v.crew[pid]);
  }

  lemma StepKeepsBase(w: World, e: Event)
    requires Base(w) && Allowed(w, e)
    ensures Base(Step(w, e))
  {
    match e {
      case Other(c) => OtherKeepsBase(w, c);
      case Advance(pid, id) =>
        match w.crew[pid] {
          case Fetched(_, _, _) => FetchKeepsBase(w, pid, id);
          case Drafted(_) => StoreKeepsBase(w, pid);
          case Leaving(u, rid) => DropKeepsBase(w, pid, u, rid);
          case Holding(_, _, _, _) => CopyKeepsBase(w, pid, id);
          case Copied(u, note, req, catalog) => WriteKeepsBase(w, pid, req.id, Approving(u.name, note, catalog));
          case Refusing(u, note, req) => WriteKeepsBase(w, pid, req.id, Rejecting(u.name, note));
          case _ =>
        }
      case BeginOpen(_, _, _, _) => OpeningKeepsBase(w, e);
      case _ => BeginKeepsBase(w, e);
    }
  }

  lemma {:induction false} RunKeepsBase(w: World, es: seq<Event>)
    requires Base(w) && AllowedRun(w, es)
    ensures Base(Run(w, es))
    decreases |es|
  {
    if es != [] {
      StepKeepsBase(w, es[0]);
      RunKeepsBase(Step(w, es[0]), es[1..]);
    }
  }

  /** However any number of openings, reviews, withdrawals and edits interleave,
      no target name ever gets a second catalogue model and no private model a
      second pending request. */
  lemma OneCopyPerName(w: World, es: seq<Event>)
    requires Start(w) && AllowedRun(w, es)
    ensures var made := Run(w, es).made; forall i, j :: 0 <= i < j < |made| ==> made[i].name != made[j].name
    ensures OnePending(Run(w, es).s.requests)
  {
    RunKeepsBase(w, es);
    var v := Run(w, es);
    forall i, j | 0 <= i < j < |v.made|
      ensures v.made[i].name != v.made[j].name
    {
      MadeOnce(v, i, j);
    }
  }

  /** Two catalogue models under one name would be one model. */
  lemma MadeOnce(w: World, i: nat, j: nat)
    requires Base(w) && i < |w.made| && j < |w.made|
    ensures w.made[i].name == w.made[j].name ==> i == j
  {
    assert IsCatalogue(w.s.models, w.made[i].id, w.made[i].name) && IsCatalogue(w.s.models, w.made[j].id, w.made[j].name);
    if w.made[i].name == w.made[j].name {
      assert H.SameSlot(w.s.models[w.made[i].id], w.s.models[w.made[j].id]);
    }
  }

  // ----- when a request is decided only once -------------------------------

  /** The check that Approve and Reject do not make inside their last call: the
      request they are about to write is still pending. */
  predicate Guard(w: World, e: Event) {
    Writes(w, e) && w.crew[e.pid].req.id in w.s.requests ==> w.s.requests[w.crew[e.pid].req.id].status.Pending?
  }

  predicate Writes(w: World, e: Event) {
    e.Advance? && e.pid in w.crew && (w.crew[e.pid].Copied? || w.crew[e.pid].Refusing?)
  }

  predicate GuardedRun(w: World, es: seq<Event>)
    requires AllowedRun(w, es)
    decreases |es|
  {
    es != [] ==> Guard(w, es[0]) && GuardedRun(Step(w, es[0]), es[1..])
  }

  ghost predicate Once(log: seq<string>) {
    forall i, j :: 0 <= i < j < |log| ==> log[i] != log[j]
  }

  lemma StepGrowsLog(w: World, e: Event)
    requires Base(w) && Allowed(w, e)
    ensures w.decided <= Step(w, e).decided
    ensures Once(w.decided) ==> (Once(Step(w, e).decided) <==> Guard(w, e))
  {
    if Writes(w, e) {
      var rid := w.crew[e.pid].req.id;
      if rid in w.s.requests && Once(w.decided) {
        AppendOnce(w.decided, rid);
      }
    }
  }

  lemma AppendOnce(log: seq<string>, x: string)
    requires Once(log)
    ensures Once(log + [x]) <==> x !in log
  {
    var l := log + [x];
    if x in log {
      var i :| 0 <= i < |log| && log[i] == x;
      assert l[i] == l[|log|];
    }
  }

  lemma {:induction false} RunGrowsLog(w: World, es: seq<Event>)
    requires Base(w) && AllowedRun(w, es)
    ensures w.decided <= Run(w, es).decided
    decreases |es|
  {
    if es != [] {
      StepGrowsLog(w, es[0]);
      StepKeepsBase(w, es[0]);
      RunGrowsLog(Step(w, es[0]), es[1..]);
    }
  }

  lemma {:induction false} OnceIffGuarded(w: World, es: seq<Event>)
    requires Base(w) && AllowedRun(w, es) && Once(w.decided)
    ensures Once(Run(w, es).decided) <==> GuardedRun(w, es)
    decreases |es|
  {
    if es != [] {
      var v := Step(w, es[0]);
      StepGrowsLog(w, es[0]);
      StepKeepsBase(w, es[0]);
      RunGrowsLog(v, es[1..]);
      if Guard(w, es[0]) {
        OnceIffGuarded(v, es[1..]);
      }
    }
  }

  /** With Reject and Withdraw racing, every request is decided at most once
      exactly when each review's last write finds its request still pending. */
  lemma DecidedOnceIffGuarded(w: World, es: seq<Event>)
    requires Start(w) && AllowedRun(w, es)
    ensures Once(Run(w, es).decided) <==> GuardedRun(w, es)
  {
    OnceIffGuarded(w, es);
  }

  // ----- guarded interleavings keep the workflow's invariants --------------

  predicate SameAsk(a: Request, b: Request) {
    a.targetName == b.targetName && a.privateUri == b.privateUri && a.privateModelId == b.privateModelId
  }

  /** The copy a review read still speaks of the request that is stored. */
  predicate Asked(s: State, req: Request) {
    && req.targetName != "" && IsPublicURI(req.privateUri) && H.ParseScheme(req.privateUri).Ok?
    && req.privateModelId in s.minted && SourceMatches(s.models, req)
    && req.id in s.minted && (req.id in s.requests ==> SameAsk(s.requests[req.id], req))
  }

  predicate IsCopyOf(models: H.Store, catalog: string, req: Request) {
    catalog in models ==> IsCatalogue(models, catalog, req.targetName) && models[catalog].uri == req.privateUri
  }

  predicate TaskOk(s: State, t: Task) {
    match t
    case Fetched(u, _, req) => u.admin && Asked(s, req)
    case Holding(u, _, req, snap) => u.admin && Asked(s, req) && snap.uri == req.privateUri
    case Copied(_, _, req, catalog) =>
      Asked(s, req) && catalog != "" && catalog in s.minted && !Named(s.requests, catalog)
      && IsCopyOf(s.models, catalog, req)
    case Drafted(req) => req.status.Pending? && RequestOk(s, req)
    case _ => true
  }

  /** No two reviews made the same model, and no review is of a request that
      another call is about to store. */
  predicate Apart(a: Task, b: Task) {
    && !(a.Copied? && b.Copied? && a.catalog == b.catalog)
    && !((a.Fetched? || a.Holding? || a.Copied?) && b.Drafted? && a.req.id == b.req.id)
  }

  ghost predicate CrewOk(s: State, crew: map<nat, Task>) {
    && (forall p :: p in crew ==> TaskOk(s, crew[p]))
    && (forall p, q :: p in crew && q in crew && p != q ==> Apart(crew[p], crew[q]))
  }

  ghost predicate Full(w: World) {
    Base(w) && Publish.Inv(w.s) && CrewOk(w.s, w.crew)
  }

  /** One call moves along while the stores change under the others. */
  lemma CrewStays(s: State, n: State, crew: map<nat, Task>, pid: nat, t: Task)
    requires CrewOk(s, crew) && TaskOk(n, t)
    requires forall p :: p in crew && p != pid ==> TaskOk(n, crew[p]) && Apart(crew[p], t) && Apart(t, crew[p])
    ensures CrewOk(n, crew[pid := t])
  {
    var after := crew[pid := t];
    forall p, q | p in after && q in after && p != q
      ensures Apart(after[p], after[q])
    {
      if p != pid && q != pid {
        assert Apart(crew[p], crew[q]);
      }
    }
  }

  lemma BeginKeepsFull(w: World, e: Event)
    requires Full(w) && Allowed(w, e) && (e.Begin? || e.BeginWithdraw?)
    ensures Full(Step(w, e))
  {
    var t := Step(w, e).crew[e.pid];
    BeginKeepsBase(w, e);
    if e.rid in w.s.requests {
      assert RequestOk(w.s, w.s.requests[e.rid]);
    }
    forall p | p in w.crew
      ensures Apart(w.crew[p], t) && Apart(t, w.crew[p])
    {
      assert w.crew[p].Drafted? ==> DraftOk(w, w.crew[p].req);
    }
    CrewStays(w.s, w.s, w.crew, e.pid, t);
  }

  lemma OpeningKeepsFull(w: World, e: Event)
    requires Full(w) && Allowed(w, e) && e.BeginOpen?
    ensures Full(Step(w, e))
  {
    var v := Step(w, e);
    var t := v.crew[e.pid];
    OpeningKeepsBase(w, e);
    MoreMinted(w.s, e.id);
    if t.Drafted? {
      DraftIsOk(w.s, e.u, e.q, e.id);
    }
    forall p | p in w.crew
      ensures TaskOk(v.s, w.crew[p]) && Apart(w.crew[p], t) && Apart(t, w.crew[p])
    {
      assert TaskOk(w.s, w.crew[p]);
    }
    CrewStays(w.s, v.s, w.crew, e.pid, t);
  }

  lemma StoreKeepsFull(w: World, pid: nat)
    requires Full(w) && pid in w.crew && w.crew[pid].Drafted?
    ensures Full(Store(w, pid, w.crew[pid].req))
  {
    var r := w.crew[pid].req;
    var v := Store(w, pid, r);
    StoreKeepsBase(w, pid);
    assert DraftOk(w, r) && TaskOk(w.s, w.crew[pid]);
    StoringKeepsInv(w.s, r);
    forall p | p in w.crew && p != pid
      ensures TaskOk(v.s, w.crew[p])
    {
      assert Apart(w.crew[p], w.crew[pid]);
      StoreKeepsTask(w.s, r, w.crew[p]);
    }
    CrewStays(w.s, v.s, w.crew, pid, v.crew[pid]);
  }

  lemma StoreKeepsTask(s: State, r: Request, t: Task)
    requires TaskOk(s, t) && RequestOk(s, r) && r.status.Pending? && Apart(t, Drafted(r))
    ensures TaskOk(s.(requests := Write(s.requests, r.id, RequestCreate(s.requests, r))), t)
  {
  }

  lemma DropKeepsFull(w: World, pid: nat, u: H.User, rid: string)
    requires Full(w) && pid in w.crew
    ensures Full(Drop(w, pid, u, rid))
  {
    var v := Drop(w, pid, u, rid);
    DropKeepsBase(w, pid, u, rid);
    forall p | p in w.crew
      ensures TaskOk(v.s, w.crew[p])
    {
      assert TaskOk(w.s, w.crew[p]);
    }
    CrewStays(w.s, v.s, w.crew, pid, v.crew[pid]);
  }

  predicate Survives(s: State, n: State, id: string) {
    id in n.models ==> id in s.models && H.SameIdentity(s.models[id], n.models[id])
  }

  /** A call of the hub may only take away the models a task knows. */
  lemma TaskStays(s: State, n: State, t: Task)
    requires TaskOk(s, t) && n.requests == s.requests && s.minted <= n.minted
    requires t.Fetched? || t.Holding? || t.Copied? || t.Drafted? ==> Survives(s, n, t.req.privateModelId)
    requires t.Copied? ==> Survives(s, n, t.catalog)
    ensures TaskOk(n, t)
  {
  }

  lemma OtherKeepsTask(s: State, c: Call, t: Task)
    requires Publish.Inv(s) && FreshFor(s, c.op) && c.op.Hub? && TaskOk(s, t)
    ensures TaskOk(Next(s, c), t)
  {
    var n := Next(s, c);
    forall x | x in s.minted
      ensures Survives(s, n, x)
    {
      SurvivorIsOld(s, c.user, c.op.hub, x);
    }
    TaskStays(s, n, t);
  }

  lemma OtherKeepsFull(w: World, c: Call)
    requires Full(w) && Allowed(w, Other(c))
    ensures Full(Step(w, Other(c)))
  {
    OtherKeepsBase(w, c);
    NextKeepsInv(w.s, c);
    forall p | p in w.crew
      ensures TaskOk(Next(w.s, c), w.crew[p])
    {
      OtherKeepsTask(w.s, c, w.crew[p]);
    }
  }

  lemma FetchedKeepsFull(w: World, pid: nat, id: string)
    requires Full(w) && pid in w.crew && w.crew[pid].Fetched?
    ensures Full(Move(w, pid, id))
  {
    var t := Move(w, pid, id).crew[pid];
    FetchKeepsBase(w, pid, id);
    assert TaskOk(w.s, w.crew[pid]);
    forall p | p in w.crew && p != pid
      ensures Apart(w.crew[p], t) && Apart(t, w.crew[p])
    {
      assert Apart(w.crew[p], w.crew[pid]) && Apart(w.crew[pid], w.crew[p]);
    }
    CrewStays(w.s, w.s, w.crew, pid, t);
  }

  lemma CopyKeepsFull(w: World, pid: nat, id: string)
    requires Full(w) && pid in w.crew && w.crew[pid].Holding? && id != "" && id !in w.s.minted
    ensures Full(Copy(w, pid, w.crew[pid], id))
  {
    var t := w.crew[pid];
    CopyIsListed(w.s.models, t, id);
    AddingKeepsFull(w, pid, H.PublicCopy(w.s.models, Some(t.u), CopyOf(t.req, t.snap), id), id);
  }

  lemma AddingKeepsFull(w: World, pid: nat, m: Result<H.Model>, id: string)
    requires Full(w) && pid in w.crew && w.crew[pid].Holding? && id != "" && id !in w.s.minted
    requires m.Ok? ==> IsListed(w.s.models, m.value, w.crew[pid].req, id) && m.value.uri == w.crew[pid].snap.uri
    ensures Full(Adding(w, pid, w.crew[pid], m, id))
  {
    var v := Adding(w, pid, w.crew[pid], m, id);
    AddingKeepsBase(w, pid, m, id);
    assert TaskOk(w.s, w.crew[pid]);
    CopyingKeepsInv(w.s, m, id);
    if m.Ok? {
      CopiedIsOk(w.s, w.crew[pid], m.value, v.crew[pid]);
    }
    MadeKeepsCrew(w, v.s, pid, v.crew[pid], id);
  }

  lemma CopyingKeepsInv(s: State, m: Result<H.Model>, id: string)
    requires Publish.Inv(s) && id != "" && id !in s.minted
    requires m.Ok? ==> m.value.id == id && m.value.scope.Public? && !H.Clashes(s.models, m.value)
    ensures Publish.Inv(s.(models := H.Put(s.models, m), minted := s.minted + {id})) && !Named(s.requests, id)
  {
    MoreMinted(s, id);
    if m.Ok? {
      CatalogueKeepsInv(s, m.value);
    }
    assert forall r :: r in s.requests ==> RequestOk(s, s.requests[r]);
  }

  lemma CopiedIsOk(s: State, t: Task, m: H.Model, c: Task)
    requires t.Holding? && TaskOk(s, t) && m.id != "" && m.id !in s.minted && !Named(s.requests, m.id)
    requires IsListed(s.models, m, t.req, m.id) && m.uri == t.snap.uri && c == Copied(t.u, t.note, t.req, m.id)
    ensures TaskOk(s.(models := s.models[m.id := m], minted := s.minted + {m.id}), c)
  {
  }

  lemma MadeKeepsTask(s: State, n: State, t: Task, id: string)
    requires TaskOk(s, t) && id !in s.minted && n.minted == s.minted + {id} && n.requests == s.requests
    requires forall x :: x in n.models && x != id ==> x in s.models && n.models[x] == s.models[x]
    ensures TaskOk(n, t)
  {
  }

  lemma MadeKeepsCrew(w: World, n: State, pid: nat, t: Task, id: string)
    requires CrewOk(w.s, w.crew) && pid in w.crew && w.crew[pid].Holding? && TaskOk(n, t)
    requires id !in w.s.minted && n.minted == w.s.minted + {id} && n.requests == w.s.requests
    requires forall x :: x in n.models && x != id ==> x in w.s.models && n.models[x] == w.s.models[x]
    requires t.Finished? || (t.Copied? && t.catalog == id && t.req == w.crew[pid].req)
    ensures CrewOk(n, w.crew[pid := t])
  {
    forall p | p in w.crew && p != pid
      ensures TaskOk(n, w.crew[p]) && Apart(w.crew[p], t) && Apart(t, w.crew[p])
    {
      assert TaskOk(w.s, w.crew[p]) && Apart(w.crew[pid], w.crew[p]);
      MadeKeepsTask(w.s, n, w.crew[p], id);
    }
    CrewStays(w.s, n, w.crew, pid, t);
  }

  lemma RecordKeepsFull(w: World, pid: nat, d: Decision)
    requires Full(w) && pid in w.crew && Writes(w, Advance(pid, "")) && Guard(w, Advance(pid, ""))
    requires w.crew[pid].Copied? ==> d.Approving? && d.catalogModelId == w.crew[pid].catalog
    requires w.crew[pid].Refusing? ==> d.Rejecting?
    ensures Full(Record(w, pid, w.crew[pid].req.id, d))
  {
    var t := w.crew[pid];
    var rid := t.req.id;
    var v := Record(w, pid, rid, d);
    WriteKeepsBase(w, pid, rid, d);
    assert TaskOk(w.s, t);
    if rid in w.s.requests {
      match d {
        case Approving(who, note, catalog) => ApprovingKeepsInv(w.s, rid, who, note, catalog);
        case Rejecting(who, note) => RejectingKeepsInv(w.s, rid, who, note);
      }
      assert RequestOk(w.s, w.s.requests[rid]);
    }
    forall p | p in w.crew && p != pid
      ensures TaskOk(v.s, w.crew[p])
    {
      assert Apart(w.crew[p], t);
      RecordKeepsTask(w.s, t, d, w.crew[p]);
    }
    CrewStays(w.s, v.s, w.crew, pid, v.crew[pid]);
  }

  lemma RecordKeepsTask(s: State, writer: Task, d: Decision, t: Task)
    requires (writer.Copied? || writer.Refusing?) && TaskOk(s, t) && Apart(t, writer)
    requires writer.Copied? ==> d.Approving? && d.catalogModelId == writer.catalog
    requires writer.Refusing? ==> d.Rejecting?
    ensures TaskOk(s.(requests := Write(s.requests, writer.req.id, RequestUpdate(s.requests, writer.req.id, d))), t)
  {
  }

  lemma StepKeepsFull(w: World, e: Event)
    requires Full(w) && Allowed(w, e) && Guard(w, e)
    ensures Full(Step(w, e))
  {
    match e {
      case Begin(_, _, _, _, _) | BeginWithdraw(_, _, _) => BeginKeepsFull(w, e);
      case BeginOpen(_, _, _, _) => OpeningKeepsFull(w, e);
      case Other(c) => OtherKeepsFull(w, c);
      case Advance(pid, id) =>
        match w.crew[pid] {
          case Fetched(_, _, _) => FetchedKeepsFull(w, pid, id);
          case Holding(_, _, _, _) => CopyKeepsFull(w, pid, id);
          case Copied(u, note, req, catalog) => RecordKeepsFull(w, pid, Approving(u.name, note, catalog));
          case Refusing(u, note, req) => RecordKeepsFull(w, pid, Rejecting(u.name, note));
          case Drafted(_) => StoreKeepsFull(w, pid);
          case Leaving(u, rid) => DropKeepsFull(w, pid, u, rid);
          case _ =>
        }
    }
  }

  lemma {:induction false} RunKeepsFull(w: World, es: seq<Event>)
    requires Full(w) && AllowedRun(w, es) && GuardedRun(w, es)
    ensures Full(Run(w, es))
    decreases |es|
  {
    if es != [] {
      StepKeepsFull(w, es[0]);
      RunKeepsFull(Step(w, es[0]), es[1..]);
    }
  }

  /** As long as each last write finds its request pending, interleaved reviews
      keep everything that sequential ones do. */
  lemma GuardedKeepsWorkflow(w: World, es: seq<Event>)
    requires Start(w) && AllowedRun(w, es) && GuardedRun(w, es)
    ensures Publish.Inv(Run(w, es).s)
  {
    RunKeepsFull(w, es);
  }

  // ----- approvals alone ---------------------------------------------------

  /** No rejection and no withdrawal begins. */
  predicate CalmEvent(e: Event) {
    match e
    case Begin(_, _, _, _, approve) => approve
    case BeginWithdraw(_, _, _) => false
    case _ => true
  }

  predicate CalmRun(es: seq<Event>) {
    forall e :: e in es ==> CalmEvent(e)
  }

  /** What became of a catalogue model: its review still has to write the
      request, or has written it, approved and naming exactly this model. */
  predicate Produced(w: World, m: Made) {
    m.pid in w.crew &&
    match w.crew[m.pid]
    case Copied(_, _, req, catalog) => catalog == m.id && req.id == m.rid && req.targetName == m.name
    case Finished(rid, reply) =>
      rid == m.rid && m.rid in w.s.requests && reply == Ok(w.s.requests[m.rid]) && ApprovedAs(w.s.requests[m.rid], m)
    case _ => false
  }

  predicate ApprovedAs(r: Request, m: Made) {
    r.status.Approved? && r.catalogModelId == m.id && r.targetName == m.name
  }

  /** The review has created its model. */
  predicate HasCopied(t: Task) {
    t.Copied? || (t.Finished? && t.reply.Ok?)
  }

  ghost predicate MadeBy(made: seq<Made>, pid: nat) {
    exists i :: 0 <= i < |made| && made[i].pid == pid
  }

  predicate CalmTask(w: World, t: Task) {
    match t
    case Fetched(_, _, req) => req.id in w.s.requests
    case Holding(_, _, req, _) => req.id in w.s.requests
    case Copied(_, _, req, _) => req.id in w.s.requests && w.s.requests[req.id].status.Pending?
    case Refusing(_, _, _) | Leaving(_, _) => false
    case _ => true
  }

  predicate CalmRequest(w: World, r: Request) {
    !r.status.Rejected? && (r.status.Approved? ==> IsCatalogue(w.s.models, r.catalogModelId, r.targetName))
  }

  ghost predicate Calm(w: World) {
    && Full(w)
    && (forall p :: p in w.crew ==> CalmTask(w, w.crew[p]))
    && (forall r :: r in w.s.requests ==> CalmRequest(w, w.s.requests[r]))
    && (forall i :: 0 <= i < |w.made| ==> Produced(w, w.made[i]))
    && (forall p :: p in w.crew && HasCopied(w.crew[p]) ==> MadeBy(w.made, p))
  }

  /** Only one review at a time holds a model made for a given request. */
  lemma SoleCopier(w: World, p: nat, q: nat)
    requires Calm(w) && p in w.crew && q in w.crew && w.crew[p].Copied? && w.crew[q].Copied?
    requires w.crew[p].req.id == w.crew[q].req.id
    ensures p == q
  {
    assert MadeBy(w.made, p) && MadeBy(w.made, q);
    var i :| 0 <= i < |w.made| && w.made[i].pid == p;
    var j :| 0 <= j < |w.made| && w.made[j].pid == q;
    assert Produced(w, w.made[i]) && Produced(w, w.made[j]);
    assert TaskOk(w.s, w.crew[p]) && TaskOk(w.s, w.crew[q]);
    MadeOnce(w, i, j);
  }

  /** The requests there were are as they were, and new ones are pending. */
  predicate Extends(before: Requests, after: Requests) {
    && (forall r :: r in before ==> r in after && after[r] == before[r])
    && (forall r :: r in after && r !in before ==> after[r].status.Pending?)
  }

  /** One call moves along without making a model or writing a decision. */
  lemma CalmStays(w: World, v: World, pid: nat, t: Task)
    requires Calm(w) && Full(v) && v.made == w.made && v.crew == w.crew[pid := t]
    requires v.s.models == w.s.models && Extends(w.s.requests, v.s.requests)
    requires CalmTask(v, t) && !HasCopied(t) && (pid in w.crew ==> !HasCopied(w.crew[pid]))
    ensures Calm(v)
  {
    MadeStays(w, v, pid, t);
    CrewStaysCalm(w, v, pid, t);
    RequestsStay(w, v);
  }

  lemma MadeStays(w: World, v: World, pid: nat, t: Task)
    requires v.made == w.made && v.crew == w.crew[pid := t] && Extends(w.s.requests, v.s.requests)
    requires pid in w.crew ==> !HasCopied(w.crew[pid])
    requires forall i :: 0 <= i < |w.made| ==> Produced(w, w.made[i])
    ensures forall i :: 0 <= i < |v.made| ==> Produced(v, v.made[i])
  {
    forall i | 0 <= i < |v.made|
      ensures Produced(v, v.made[i])
    {
      assert Produced(w, w.made[i]);
    }
  }

  lemma CrewStaysCalm(w: World, v: World, pid: nat, t: Task)
    requires v.made == w.made && v.crew == w.crew[pid := t] && Extends(w.s.requests, v.s.requests)
    requires CalmTask(v, t) && !HasCopied(t)
    requires forall p :: p in w.crew ==> CalmTask(w, w.crew[p]) && (HasCopied(w.crew[p]) ==> MadeBy(w.made, p))
    ensures forall p :: p in v.crew ==> CalmTask(v, v.crew[p]) && (HasCopied(v.crew[p]) ==> MadeBy(v.made, p))
  {
    forall p | p in v.crew && p != pid
      ensures CalmTask(v, v.crew[p])
    {
      assert CalmTask(w, w.crew[p]);
    }
  }

  lemma RequestsStay(w: World, v: World)
    requires v.s.models == w.s.models && Extends(w.s.requests, v.s.requests)
    requires forall r :: r in w.s.requests ==> CalmRequest(w, w.s.requests[r])
    ensures forall r :: r in v.s.requests ==> CalmRequest(v, v.s.requests[r])
  {
    forall r | r in v.s.requests
      ensures CalmRequest(v, v.s.requests[r])
    {
      assert r in w.s.requests ==> CalmRequest(w, w.s.requests[r]);
    }
  }

  lemma BeginKeepsCalm(w: World, e: Event)
    requires Calm(w) && Allowed(w, e) && (e.Begin? || e.BeginOpen?) && CalmEvent(e)
    ensures Calm(Step(w, e))
  {
    var v := Step(w, e);
    StepKeepsFull(w, e);
    CalmStays(w, v, e.pid, v.crew[e.pid]);
  }

  lemma OtherKeepsCalm(w: World, c: Call)
    requires Calm(w) && Allowed(w, Other(c)) && CalmEvent(Other(c))
    ensures Calm(Step(w, Other(c)))
  {
    var v := Step(w, Other(c));
    OtherKeepsFull(w, c);
    forall r | r in v.s.requests
      ensures CalmRequest(v, v.s.requests[r])
    {
      ApprovedStays(w, c, v, r);
    }
    forall i | 0 <= i < |v.made|
      ensures Produced(v, v.made[i])
    {
      assert Produced(w, w.made[i]);
    }
    assert forall p :: p in v.crew ==> CalmTask(w, w.crew[p]);
  }

  /** Storing a draft adds a pending request and touches no other. */
  lemma StoreKeepsCalm(w: World, pid: nat)
    requires Calm(w) && pid in w.crew && w.crew[pid].Drafted?
    ensures Calm(Store(w, pid, w.crew[pid].req))
  {
    var v := Store(w, pid, w.crew[pid].req);
    StoreKeepsFull(w, pid);
    assert DraftOk(w, w.crew[pid].req);
    CalmStays(w, v, pid, v.crew[pid]);
  }

  lemma ApprovedStays(w: World, c: Call, v: World, r: string)
    requires Calm(w) && Allowed(w, Other(c)) && CalmEvent(Other(c)) && v == w.(s := Next(w.s, c))
    requires r in w.s.requests
    ensures CalmRequest(v, v.s.requests[r])
  {
    assert CalmRequest(w, w.s.requests[r]);
    if w.s.requests[r].status.Approved? {
      CatalogueStays(w.s, c, w.s.requests[r].catalogModelId);
    }
  }

  /** A step that makes a model for a request that is still pending. */
  lemma MadeKeepsCalm(w: World, v: World, pid: nat, t: Task, m: H.Model)
    requires Calm(w) && Full(v) && pid in w.crew && !HasCopied(w.crew[pid])
    requires m.id !in w.s.models && v.s.models == w.s.models[m.id := m] && v.s.requests == w.s.requests
    requires v.crew == w.crew[pid := t] && t.Copied? && t.catalog == m.id && CalmTask(w, t)
    requires v.made == w.made + [Made(pid, t.req.id, t.req.targetName, m.id)]
    ensures Calm(v)
  {
    MadeIsBy(w, v, pid, t, m);
    forall p | p in v.crew
      ensures CalmTask(v, v.crew[p])
    {
      if p != pid {
        assert CalmTask(w, w.crew[p]);
      }
    }
    forall r | r in v.s.requests
      ensures CalmRequest(v, v.s.requests[r])
    {
      assert CalmRequest(w, w.s.requests[r]);
    }
  }

  lemma MadeIsBy(w: World, v: World, pid: nat, t: Task, m: H.Model)
    requires Calm(w) && pid in w.crew && !HasCopied(w.crew[pid])
    requires v.s.requests == w.s.requests && v.crew == w.crew[pid := t] && t.Copied? && t.catalog == m.id
    requires v.made == w.made + [Made(pid, t.req.id, t.req.targetName, m.id)]
    ensures forall i :: 0 <= i < |v.made| ==> Produced(v, v.made[i])
    ensures forall p :: p in v.crew && HasCopied(v.crew[p]) ==> MadeBy(v.made, p)
  {
    assert v.made[|w.made|].pid == pid;
    forall i | 0 <= i < |v.made|
      ensures Produced(v, v.made[i])
    {
      if i < |w.made| {
        assert v.made[i] == w.made[i];
        assert Produced(w, w.made[i]);
      }
    }
    forall p | p in v.crew && HasCopied(v.crew[p])
      ensures MadeBy(v.made, p)
    {
      if p != pid {
        StillMade(w.made, v.made, p);
      }
    }
  }

  lemma FetchedKeepsCalm(w: World, pid: nat, id: string)
    requires Calm(w) && pid in w.crew && w.crew[pid].Fetched?
    ensures Calm(Move(w, pid, id))
  {
    var v := Move(w, pid, id);
    FetchedKeepsFull(w, pid, id);
    assert CalmTask(w, w.crew[pid]);
    CalmStays(w, v, pid, v.crew[pid]);
  }

  lemma CopyKeepsCalm(w: World, pid: nat, id: string)
    requires Calm(w) && pid in w.crew && w.crew[pid].Holding? && id != "" && id !in w.s.minted
    ensures Calm(Copy(w, pid, w.crew[pid], id))
  {
    var t := w.crew[pid];
    CopyIsListed(w.s.models, t, id);
    AddingKeepsCalm(w, pid, H.PublicCopy(w.s.models, Some(t.u), CopyOf(t.req, t.snap), id), id);
  }

  lemma AddingKeepsCalm(w: World, pid: nat, m: Result<H.Model>, id: string)
    requires Calm(w) && pid in w.crew && w.crew[pid].Holding? && id != "" && id !in w.s.minted
    requires m.Ok? ==> IsListed(w.s.models, m.value, w.crew[pid].req, id) && m.value.uri == w.crew[pid].snap.uri
    ensures Calm(Adding(w, pid, w.crew[pid], m, id))
  {
    var t := w.crew[pid];
    var v := Adding(w, pid, t, m, id);
    AddingKeepsFull(w, pid, m, id);
    assert CalmTask(w, t) && TaskOk(w.s, t);
    if m.Ok? {
      StillPending(w, t, m.value);
      MadeKeepsCalm(w, v, pid, v.crew[pid], m.value);
    } else {
      CalmStays(w, v, pid, v.crew[pid]);
    }
  }

  /** A free target name means nobody has approved the request meanwhile. */
  lemma StillPending(w: World, t: Task, m: H.Model)
    requires Calm(w) && t.Holding? && CalmTask(w, t) && TaskOk(w.s, t)
    requires m.scope.Public? && m.namespace_ == "" && m.name == t.req.targetName && !H.Clashes(w.s.models, m)
    ensures w.s.requests[t.req.id].status.Pending?
  {
    var r := w.s.requests[t.req.id];
    assert CalmRequest(w, r);
    assert r.catalogModelId in w.s.models ==> !H.SameSlot(w.s.models[r.catalogModelId], m);
  }

  lemma ApproveKeepsCalm(w: World, pid: nat, id: string)
    requires Calm(w) && pid in w.crew && w.crew[pid].Copied?
    ensures Guard(w, Advance(pid, id)) && Calm(Move(w, pid, id))
  {
    var t := w.crew[pid];
    var d := Approving(t.u.name, t.note, t.catalog);
    assert CalmTask(w, t);
    RecordKeepsFull(w, pid, d);
    ApproveKeepsMade(w, pid, d);
    forall p | p in w.crew
      ensures var v := Record(w, pid, t.req.id, d); CalmTask(v, v.crew[p]) && (HasCopied(v.crew[p]) ==> MadeBy(v.made, p))
    {
      ApproveKeepsTasks(w, pid, d, p);
    }
  }

  lemma ApproveKeepsMade(w: World, pid: nat, d: Decision)
    requires Calm(w) && pid in w.crew && w.crew[pid].Copied? && d.Approving? && d.catalogModelId == w.crew[pid].catalog
    ensures var v := Record(w, pid, w.crew[pid].req.id, d);
            && (forall i :: 0 <= i < |v.made| ==> Produced(v, v.made[i]))
            && (forall r :: r in v.s.requests ==> CalmRequest(v, v.s.requests[r]))
  {
    var t := w.crew[pid];
    var v := Record(w, pid, t.req.id, d);
    assert CalmTask(w, t) && TaskOk(w.s, t);
    assert MadeBy(w.made, pid);
    var k :| 0 <= k < |w.made| && w.made[k].pid == pid;
    assert Produced(w, w.made[k]);
    forall i | 0 <= i < |v.made|
      ensures Produced(v, v.made[i])
    {
      RecordKeepsProduced(w, pid, d, w.made[k], i);
    }
    assert IsCatalogue(w.s.models, w.made[k].id, w.made[k].name);
    RecordKeepsRequests(w, pid, d, v);
  }

  lemma RecordKeepsRequests(w: World, pid: nat, d: Decision, v: World)
    requires pid in w.crew && w.crew[pid].Copied? && CalmTask(w, w.crew[pid]) && TaskOk(w.s, w.crew[pid])
    requires d.Approving? && d.catalogModelId == w.crew[pid].catalog && v == Record(w, pid, w.crew[pid].req.id, d)
    requires IsCatalogue(w.s.models, w.crew[pid].catalog, w.crew[pid].req.targetName)
    requires forall r :: r in w.s.requests ==> CalmRequest(w, w.s.requests[r])
    ensures forall r :: r in v.s.requests ==> CalmRequest(v, v.s.requests[r])
  {
    forall r | r in v.s.requests
      ensures CalmRequest(v, v.s.requests[r])
    {
      assert CalmRequest(w, w.s.requests[r]);
    }
  }

  lemma RecordKeepsProduced(w: World, pid: nat, d: Decision, m: Made, i: nat)
    requires pid in w.crew && w.crew[pid].Copied? && CalmTask(w, w.crew[pid]) && TaskOk(w.s, w.crew[pid])
    requires d.Approving? && d.catalogModelId == w.crew[pid].catalog
    requires m.pid == pid && Produced(w, m) && i < |w.made| && Produced(w, w.made[i])
    ensures Produced(Record(w, pid, w.crew[pid].req.id, d), w.made[i])
  {
  }

  lemma ApproveKeepsTasks(w: World, pid: nat, d: Decision, p: nat)
    requires Calm(w) && pid in w.crew && w.crew[pid].Copied? && d.Approving? && p in w.crew
    ensures var v := Record(w, pid, w.crew[pid].req.id, d);
            CalmTask(v, v.crew[p]) && (HasCopied(v.crew[p]) ==> MadeBy(v.made, p))
  {
    assert CalmTask(w, w.crew[p]) && HasCopied(w.crew[pid]);
    if p != pid {
      if w.crew[p].Copied? && w.crew[p].req.id == w.crew[pid].req.id {
        SoleCopier(w, p, pid);
      }
      RecordKeepsCalm(w, pid, d, w.crew[p]);
    }
  }

  lemma RecordKeepsCalm(w: World, pid: nat, d: Decision, t: Task)
    requires pid in w.crew && w.crew[pid].Copied? && d.Approving? && CalmTask(w, t)
    requires t.Copied? ==> t.req.id != w.crew[pid].req.id
    ensures CalmTask(Record(w, pid, w.crew[pid].req.id, d), t)
  {
  }

  lemma StillMade(a: seq<Made>, b: seq<Made>, p: nat)
    requires MadeBy(a, p) && a <= b
    ensures MadeBy(b, p)
  {
    var i :| 0 <= i < |a| && a[i].pid == p;
    assert b[i].pid == p;
  }

  lemma StepKeepsCalm(w: World, e: Event)
    requires Calm(w) && Allowed(w, e) && CalmEvent(e)
    ensures Guard(w, e) && Calm(Step(w, e))
  {
    match e {
      case Begin(_, _, _, _, _) | BeginOpen(_, _, _, _) => BeginKeepsCalm(w, e);
      case Other(c) => OtherKeepsCalm(w, c);
      case Advance(pid, id) => AdvanceKeepsCalm(w, pid, id);
    }
  }

  lemma AdvanceKeepsCalm(w: World, pid: nat, id: string)
    requires Calm(w) && Allowed(w, Advance(pid, id))
    ensures Guard(w, Advance(pid, id)) && Calm(Move(w, pid, id))
  {
    assert CalmTask(w, w.crew[pid]);
    match w.crew[pid] {
      case Fetched(_, _, _) => FetchedKeepsCalm(w, pid, id);
      case Holding(_, _, _, _) => CopyKeepsCalm(w, pid, id);
      case Copied(_, _, _, _) => ApproveKeepsCalm(w, pid, id);
      case Drafted(_) => StoreKeepsCalm(w, pid);
      case _ =>
    }
  }

  lemma {:induction false} RunKeepsCalm(w: World, es: seq<Event>)
    requires Calm(w) && AllowedRun(w, es) && CalmRun(es)
    ensures GuardedRun(w, es) && Calm(Run(w, es))
    decreases |es|
  {
    if es != [] {
      StepKeepsCalm(w, es[0]);
      RunKeepsCalm(Step(w, es[0]), es[1..]);
    }
  }

  predicate Won(w: World, p: nat) {
    p in w.crew && w.crew[p].Finished? && w.crew[p].reply.Ok?
  }

  /** Any number of approvals, interleaved step by step with registrations,
      edits and new requests but no rejection or withdrawal: every catalogue model
      made ends up named by its own approved request once its review finishes; a
      review that succeeds answers exactly that stored request; and of all
      reviews for one target name at most one succeeds. */
  lemma ApprovalsAgree(w: World, es: seq<Event>)
    requires Start(w) && AllowedRun(w, es) && CalmRun(es)
    ensures var v := Run(w, es);
            && (forall i :: 0 <= i < |v.made| ==> Produced(v, v.made[i]))
            && (forall p :: Won(v, p) ==>
                  var r := v.crew[p].reply.value;
                  v.crew[p].rid in v.s.requests && v.s.requests[v.crew[p].rid] == r && r.status.Approved?
                  && IsCatalogue(v.s.models, r.catalogModelId, r.targetName))
            && (forall p, q :: Won(v, p) && Won(v, q) && SameTarget(v, p, q) ==> p == q)
  {
    RunKeepsCalm(w, es);
    var v := Run(w, es);
    forall p | Won(v, p)
      ensures var r := v.crew[p].reply.value;
              v.crew[p].rid in v.s.requests && v.s.requests[v.crew[p].rid] == r && r.status.Approved?
              && IsCatalogue(v.s.models, r.catalogModelId, r.targetName)
    {
      assert MadeBy(v.made, p);
      var i :| 0 <= i < |v.made| && v.made[i].pid == p;
      assert Produced(v, v.made[i]);
    }
    forall p, q | Won(v, p) && Won(v, q) && SameTarget(v, p, q)
      ensures p == q
    {
      OneWinner(v, p, q);
    }
  }

  predicate SameTarget(w: World, p: nat, q: nat)
    requires Won(w, p) && Won(w, q)
  {
    w.crew[p].reply.value.targetName == w.crew[q].reply.value.targetName
  }

  lemma OneWinner(w: World, p: nat, q: nat)
    requires Calm(w) && Won(w, p) && Won(w, q) && SameTarget(w, p, q)
    ensures p == q
  {
    assert MadeBy(w.made, p) && MadeBy(w.made, q);
    var i :| 0 <= i < |w.made| && w.made[i].pid == p;
    var j :| 0 <= j < |w.made| && w.made[j].pid == q;
    assert Produced(w, w.made[i]) && Produced(w, w.made[j]);
    MadeOnce(w, i, j);
  }

  // ----- left alone, the steps are the operations --------------------------

  /** A review left alone is the one-step operation of the sequential workflow,
      and so are the three calls below. */
  lemma AloneIsAtomic(w: World, pid: nat, u: H.User, rid: string, note: string, id: string)
    requires LogOk(w) && pid !in w.crew && id != "" && id !in w.s.minted
    ensures var v := Move(Move(Move(Step(w, Begin(pid, Some(u), rid, note, true)), pid, id), pid, id), pid, id);
            var o := ApproveOne(w.s.models, w.s.requests, Some(u), rid, note, id);
            v.s.models == o.models && v.s.requests == o.requests && Ends(v.crew[pid], o.reply)
  {
    var a := Step(w, Begin(pid, Some(u), rid, note, true));
    if ReadForReview(w.s.requests, Some(u), rid).Ok? {
      assert a.crew[pid] == Fetched(u, note, w.s.requests[rid]) && w.s.requests[rid].id == rid;
      FetchedAlone(a, pid, id);
    }
  }

  lemma FetchedAlone(a: World, pid: nat, id: string)
    requires pid in a.crew && a.crew[pid].Fetched? && a.crew[pid].u.admin
    requires var r := a.crew[pid].req;
             r.id in a.s.requests && a.s.requests[r.id] == r && r.status.Pending?
    ensures var t := a.crew[pid];
            var v := Move(Move(Move(a, pid, id), pid, id), pid, id);
            var o := ApproveOne(a.s.models, a.s.requests, Some(t.u), t.req.id, t.note, id);
            v.s.models == o.models && v.s.requests == o.requests && Ends(v.crew[pid], o.reply)
  {
    var t := a.crew[pid];
    var snap := H.PrivateSnapshot(a.s.models, Some(t.u), t.req.privateModelId);
    if snap.Ok? {
      var b := a.(crew := a.crew[pid := Holding(t.u, t.note, t.req, snap.value)]);
      assert Move(a, pid, id) == b;
      CopyAlone(b, pid, id);
    }
  }

  lemma CopyAlone(b: World, pid: nat, id: string)
    requires pid in b.crew && b.crew[pid].Holding? && b.crew[pid].u.admin
    ensures var t := b.crew[pid];
            var v := Move(Move(b, pid, id), pid, id);
            var m := H.PublicCopy(b.s.models, Some(t.u), CopyOf(t.req, t.snap), id);
            var reply := if m.Err? then Err(m.error)
                         else RequestUpdate(b.s.requests, t.req.id, Approving(t.u.name, t.note, id));
            v.s.models == H.Put(b.s.models, m) && v.crew[pid] == Finished(t.req.id, reply)
            && v.s.requests == (if m.Err? then b.s.requests else Write(b.s.requests, t.req.id, reply))
  {
  }

  lemma RejectAlone(w: World, pid: nat, u: Option<H.User>, rid: string, note: string, id: string)
    requires LogOk(w) && pid !in w.crew
    ensures var v := Move(Step(w, Begin(pid, u, rid, note, false)), pid, id);
            var o := RejectOne(w.s.models, w.s.requests, u, rid, note);
            v.s == State(o.models, o.requests, w.s.minted) && Ends(v.crew[pid], o.reply)
  {
    if ReadForReview(w.s.requests, u, rid).Ok? {
      assert w.s.requests[rid].id == rid;
    }
  }

  lemma OpenAlone(w: World, pid: nat, u: Option<H.User>, q: OpenRequest, id: string)
    requires pid !in w.crew && id != "" && id !in w.s.minted
    ensures var v := Move(Step(w, BeginOpen(pid, u, q, id)), pid, id);
            var o := OpenOne(w.s.models, w.s.requests, u, q, id);
            v.s == State(o.models, o.requests, w.s.minted + {id}) && Ends(v.crew[pid], o.reply)
  {
    var d := Draft(w.s.models, u, q, id);
    if d.Ok? {
      assert Step(w, BeginOpen(pid, u, q, id)).crew[pid] == Drafted(d.value);
    }
  }

  lemma WithdrawAlone(w: World, pid: nat, u: Option<H.User>, rid: string, id: string)
    requires pid !in w.crew
    ensures var v := Move(Step(w, BeginWithdraw(pid, u, rid)), pid, id);
            var o := WithdrawOne(w.s.models, w.s.requests, u, rid);
            v.s == State(o.models, o.requests, w.s.minted) && Ends(v.crew[pid], o.reply)
  {
    if WithdrawOne(w.s.models, w.s.requests, u, rid).reply.Ok? {
      assert Step(w, BeginWithdraw(pid, u, rid)).crew[pid] == Leaving(u.value, rid);
    }
  }

  /** How a call ended: with the same value, or with an error where the other
      has one. */
  predicate Ends(t: Task, reply: Result<Request>) {
    (t.Finished? || t.Answered?) && (t.reply.Ok? <==> reply.Ok?) && (reply.Ok? ==> t.reply == reply)
  }
}
