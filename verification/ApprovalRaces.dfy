/** Where the interleaved publish workflow goes wrong, and exactly when: what a
    rejection or a withdrawal that lands inside an approval leaves behind. */
module ApprovalRaces {
  import opened Text
  import opened Publish
  import opened C = ConcurrentApproval
  import H = ModelHub

  // ----- what the requester may take back ----------------------------------

  /** The identity is a request's, past or present, and nobody's draft. */
  predicate Seen(w: World, rid: string) {
    rid in w.s.minted && forall p :: p in w.crew && w.crew[p].Drafted? ==> w.crew[p].req.id != rid
  }

  /** Nobody but an admin has withdrawn a request that was decided at any time. */
  ghost predicate OwnTaken(w: World) {
    forall i :: 0 <= i < |w.dropped| && !w.dropped[i].u.admin ==>
      w.dropped[i].r.status.Pending? && w.dropped[i].r.id !in w.decided
  }

  /** The check the withdrawal does not make inside its last call: unless an
      admin calls, the request it deletes is still pending. */
  predicate StillOpen(w: World, e: Event) {
    e.Advance? && e.pid in w.crew && w.crew[e.pid].Leaving? && !w.crew[e.pid].u.admin ==>
      w.crew[e.pid].rid in w.s.requests ==> w.s.requests[w.crew[e.pid].rid].status.Pending?
  }

  predicate StillOpenRun(w: World, es: seq<Event>)
    requires AllowedRun(w, es)
    decreases |es|
  {
    es != [] ==> StillOpen(w, es[0]) && StillOpenRun(Step(w, es[0]), es[1..])
  }

  /** Deleted requests stay deleted. */
  ghost predicate DropsOk(w: World) {
    forall i :: 0 <= i < |w.dropped| ==> Seen(w, w.dropped[i].r.id) && w.dropped[i].r.id !in w.s.requests
  }

  lemma StepKeepsSeen(w: World, e: Event, rid: string)
    requires Seen(w, rid) && Allowed(w, e)
    ensures Seen(Step(w, e), rid)
    ensures rid !in w.s.requests ==> rid !in Step(w, e).s.requests
  {
  }

  lemma StoredIsSeen(w: World, rid: string)
    requires Base(w) && rid in w.s.requests
    ensures Seen(w, rid) && w.s.requests[rid].id == rid
    ensures rid in w.decided <==> !w.s.requests[rid].status.Pending?
  {
    forall p | p in w.crew && w.crew[p].Drafted?
      ensures w.crew[p].req.id != rid
    {
      assert DraftOk(w, w.crew[p].req);
    }
  }

  lemma StepKeepsDrops(w: World, e: Event)
    requires Base(w) && DropsOk(w) && Allowed(w, e)
    ensures DropsOk(Step(w, e)) && w.dropped <= Step(w, e).dropped
    ensures forall i :: 0 <= i < |w.dropped| ==> (w.dropped[i].r.id in Step(w, e).decided <==> w.dropped[i].r.id in w.decided)
  {
    var v := Step(w, e);
    if e.Advance? && w.crew[e.pid].Leaving? && w.crew[e.pid].rid in w.s.requests {
      StoredIsSeen(w, w.crew[e.pid].rid);
    }
    forall i | 0 <= i < |v.dropped|
      ensures Seen(v, v.dropped[i].r.id) && v.dropped[i].r.id !in v.s.requests
    {
      StepKeepsSeen(w, e, v.dropped[i].r.id);
    }
  }

  lemma StepTakesOwn(w: World, e: Event)
    requires Base(w) && DropsOk(w) && Allowed(w, e)
    ensures !OwnTaken(w) ==> !OwnTaken(Step(w, e))
    ensures OwnTaken(w) ==> (OwnTaken(Step(w, e)) <==> StillOpen(w, e))
  {
    StepKeepsDrops(w, e);
    var v := Step(w, e);
    assert forall i :: 0 <= i < |w.dropped| ==> v.dropped[i] == w.dropped[i];
    if |v.dropped| > |w.dropped| {
      StoredIsSeen(w, w.crew[e.pid].rid);
      assert v.dropped[|w.dropped|] == Dropped(w.crew[e.pid].u, w.s.requests[w.crew[e.pid].rid]);
    }
  }

  lemma {:induction false} TakenIffOpen(w: World, es: seq<Event>)
    requires Base(w) && DropsOk(w) && AllowedRun(w, es)
    ensures OwnTaken(C.Run(w, es)) <==> OwnTaken(w) && StillOpenRun(w, es)
    decreases |es|
  {
    if es != [] {
      StepTakesOwn(w, es[0]);
      StepKeepsDrops(w, es[0]);
      StepKeepsBase(w, es[0]);
      TakenIffOpen(Step(w, es[0]), es[1..]);
    }
  }

  /** Over all interleavings: a requester has only ever withdrawn pending requests,
      none of them decided before or since, if and only if each requester's delete
      finds the request still pending, or gone. */
  lemma OwnersTakePendingIff(w: World, es: seq<Event>)
    requires C.Start(w) && AllowedRun(w, es)
    ensures OwnTaken(C.Run(w, es)) <==> StillOpenRun(w, es)
  {
    TakenIffOpen(w, es);
  }

  // ----- when every published model has its request ------------------------

  predicate NamedFor(rs: Requests, m: Made) {
    m.rid in rs && rs[m.rid].status.Approved? && rs[m.rid].catalogModelId == m.id
  }

  /** Once its review is over, the model is named by its own approved request. */
  predicate Kept(w: World, m: Made) {
    m.pid in w.crew && w.crew[m.pid].Finished? ==> NamedFor(w.s.requests, m)
  }

  ghost predicate AllKept(w: World) {
    forall i :: 0 <= i < |w.made| ==> Kept(w, w.made[i])
  }

  /** What the last calls would have to check for that: the write of an approval,
      that its request is still there; the write of a rejection and every delete,
      that the request has not been approved. */
  predicate Found(w: World, e: Event) {
    e.Advance? && e.pid in w.crew ==>
      match w.crew[e.pid]
      case Copied(_, _, req, _) => req.id in w.s.requests
      case Refusing(_, _, req) => NotApproved(w.s.requests, req.id)
      case Leaving(_, rid) => NotApproved(w.s.requests, rid)
      case _ => true
  }

  predicate NotApproved(rs: Requests, rid: string) {
    rid in rs ==> !rs[rid].status.Approved?
  }

  predicate FoundRun(w: World, es: seq<Event>)
    requires AllowedRun(w, es)
    decreases |es|
  {
    es != [] ==> Found(w, es[0]) && FoundRun(Step(w, es[0]), es[1..])
  }

  /** An identity that stands for a request of this target name. */
  predicate Follows(w: World, rid: string, name: string) {
    Seen(w, rid) && (rid in w.s.requests ==> w.s.requests[rid].targetName == name)
  }

  predicate Reviewing(t: Task) {
    t.Fetched? || t.Holding? || t.Copied? || t.Refusing?
  }

  /** The review that made a model is about to write its request, or over. */
  predicate Maker(w: World, m: Made) {
    m.pid in w.crew &&
    match w.crew[m.pid]
    case Copied(_, _, req, catalog) => catalog == m.id && req.id == m.rid && req.targetName == m.name
    case Finished(_, _) => true
    case _ => false
  }

  ghost predicate HasMade(w: World, pid: nat) {
    exists i :: 0 <= i < |w.made| && w.made[i].pid == pid
  }

  /** The request names a model whose review is over. */
  ghost predicate NamesMade(w: World, r: Request) {
    exists i :: 0 <= i < |w.made| && w.made[i].rid == r.id && w.made[i].id == r.catalogModelId && Over(w, w.made[i])
  }

  predicate Over(w: World, m: Made) {
    m.pid in w.crew && w.crew[m.pid].Finished?
  }

  ghost predicate Traced(w: World) {
    && (forall p :: p in w.crew && Reviewing(w.crew[p]) ==> Follows(w, w.crew[p].req.id, w.crew[p].req.targetName))
    && (forall i :: 0 <= i < |w.made| ==> Follows(w, w.made[i].rid, w.made[i].name) && Maker(w, w.made[i]))
    && (forall p :: p in w.crew && w.crew[p].Copied? ==> HasMade(w, p))
    && (forall r :: r in w.s.requests && w.s.requests[r].status.Approved? ==> NamesMade(w, w.s.requests[r]))
  }

  lemma StepKeepsFollows(w: World, e: Event, rid: string, name: string)
    requires DraftsOk(w) && Follows(w, rid, name) && Allowed(w, e)
    ensures Follows(Step(w, e), rid, name)
  {
    StepKeepsSeen(w, e, rid);
    StepKeepsNames(w, e);
  }

  /** No step renames a request's target; a request that appears was drafted. */
  lemma StepKeepsNames(w: World, e: Event)
    requires DraftsOk(w) && Allowed(w, e)
    ensures var v := Step(w, e);
            forall r :: r in v.s.requests ==>
              if r in w.s.requests then v.s.requests[r].targetName == w.s.requests[r].targetName
              else e.Advance? && w.crew[e.pid].Drafted? && w.crew[e.pid].req.id == r && v.s.requests[r].status.Pending?
  {
    assert e.Advance? && w.crew[e.pid].Drafted? ==> DraftOk(w, w.crew[e.pid].req);
  }

  lemma StepKeepsTraced(w: World, e: Event)
    requires Base(w) && Traced(w) && Allowed(w, e)
    ensures Traced(Step(w, e))
  {
    StepKeepsReviews(w, e);
    StepKeepsMakers(w, e);
    StepKeepsNamers(w, e);
  }

  /** A review under way was under way before, or has just read its request. */
  lemma ReviewsComeFrom(w: World, e: Event, p: nat)
    requires Allowed(w, e) && p in Step(w, e).crew && Reviewing(Step(w, e).crew[p])
    ensures var r := Step(w, e).crew[p].req;
            || (p in w.crew && Reviewing(w.crew[p]) && w.crew[p].req == r)
            || (e.Begin? && e.rid in w.s.requests && w.s.requests[e.rid] == r)
  {
  }

  lemma StepKeepsReviews(w: World, e: Event)
    requires Base(w) && Traced(w) && Allowed(w, e)
    ensures var v := Step(w, e);
            forall p :: p in v.crew && Reviewing(v.crew[p]) ==> Follows(v, v.crew[p].req.id, v.crew[p].req.targetName)
  {
    var v := Step(w, e);
    forall p | p in v.crew && Reviewing(v.crew[p])
      ensures Follows(v, v.crew[p].req.id, v.crew[p].req.targetName)
    {
      ReviewsComeFrom(w, e, p);
      ReviewFollows(w, e, v.crew[p].req);
    }
  }

  lemma ReviewFollows(w: World, e: Event, r: Request)
    requires Base(w) && Traced(w) && Allowed(w, e)
    requires (exists p :: p in w.crew && Reviewing(w.crew[p]) && w.crew[p].req == r)
             || (e.Begin? && e.rid in w.s.requests && w.s.requests[e.rid] == r)
    ensures Follows(Step(w, e), r.id, r.targetName)
  {
    if e.Begin? && e.rid in w.s.requests {
      StoredIsSeen(w, e.rid);
    }
    StepKeepsFollows(w, e, r.id, r.targetName);
  }

  /** Only the call `pid` moves; a review that moves makes a model exactly when it
      comes to hold one, and is over once it has written its request. */
  ghost predicate OneMoves(w: World, v: World, pid: nat) {
    && (forall p :: p in w.crew ==> p in v.crew && (p != pid ==> v.crew[p] == w.crew[p]))
    && (forall p :: p in v.crew ==> p in w.crew || p == pid)
    && (pid in w.crew && w.crew[pid].Finished? ==> v.crew[pid] == w.crew[pid])
    && (pid in w.crew && w.crew[pid].Copied? ==> v.crew[pid].Finished? || v.crew[pid] == w.crew[pid])
    && (v.made == w.made || (pid in v.crew && Makes(w, v, pid, v.crew[pid])))
    && (pid in v.crew && v.crew[pid].Copied? ==> v.made != w.made || (pid in w.crew && w.crew[pid] == v.crew[pid]))
  }

  predicate Makes(w: World, v: World, pid: nat, t: Task) {
    t.Copied? && v.made == w.made + [Made(pid, t.req.id, t.req.targetName, t.catalog)]
    && pid in w.crew && w.crew[pid].Holding?
  }

  function Mover(e: Event): nat {
    if e.Other? then 0 else e.pid
  }

  lemma StepMovesOne(w: World, e: Event)
    requires Allowed(w, e)
    ensures OneMoves(w, Step(w, e), Mover(e))
  {
  }

  lemma MakersStay(w: World, v: World, pid: nat)
    requires OneMoves(w, v, pid)
    requires forall i :: 0 <= i < |w.made| ==> Maker(w, w.made[i])
    requires forall p :: p in w.crew && w.crew[p].Copied? ==> HasMade(w, p)
    ensures w.made <= v.made
    ensures forall i :: 0 <= i < |v.made| ==> Maker(v, v.made[i])
    ensures forall p :: p in v.crew && v.crew[p].Copied? ==> HasMade(v, p)
  {
    forall i | 0 <= i < |v.made|
      ensures Maker(v, v.made[i])
    {
      if i < |w.made| {
        assert v.made[i] == w.made[i] && Maker(w, w.made[i]);
      }
    }
    forall p | p in v.crew && v.crew[p].Copied?
      ensures HasMade(v, p)
    {
      if p in w.crew && w.crew[p].Copied? {
        var i :| 0 <= i < |w.made| && w.made[i].pid == p;
        assert v.made[i].pid == p;
      } else {
        assert v.made[|w.made|].pid == p;
      }
    }
  }

  lemma StepKeepsMakers(w: World, e: Event)
    requires Base(w) && Traced(w) && Allowed(w, e)
    ensures var v := Step(w, e);
            && w.made <= v.made
            && (forall i :: 0 <= i < |v.made| ==> Follows(v, v.made[i].rid, v.made[i].name) && Maker(v, v.made[i]))
            && (forall p :: p in v.crew && v.crew[p].Copied? ==> HasMade(v, p))
  {
    var v := Step(w, e);
    StepMovesOne(w, e);
    MakersStay(w, v, Mover(e));
    StepKeepsReviews(w, e);
    forall i | 0 <= i < |v.made|
      ensures Follows(v, v.made[i].rid, v.made[i].name)
    {
      if i < |w.made| {
        StepKeepsFollows(w, e, w.made[i].rid, w.made[i].name);
      } else {
        assert Reviewing(v.crew[Mover(e)]);
      }
    }
  }

  lemma OverStays(w: World, e: Event, i: nat)
    requires Allowed(w, e) && i < |w.made| && Over(w, w.made[i])
    ensures i < |Step(w, e).made| && Step(w, e).made[i] == w.made[i] && Over(Step(w, e), w.made[i])
  {
    StepMovesOne(w, e);
  }

  /** What a step does to a request that it leaves approved. */
  lemma StepApproves(w: World, e: Event, r: string)
    requires DraftsOk(w) && Allowed(w, e) && r in Step(w, e).s.requests && Step(w, e).s.requests[r].status.Approved?
    ensures var q := Step(w, e).s.requests[r];
            || (r in w.s.requests && w.s.requests[r] == q)
            || (e.Advance? && w.crew[e.pid].Copied? && w.crew[e.pid].req.id == r && r in w.s.requests
                && q.id == w.s.requests[r].id && q.catalogModelId == w.crew[e.pid].catalog
                && Step(w, e).crew[e.pid].Finished?)
  {
    StepKeepsNames(w, e);
  }

  lemma StepKeepsNamers(w: World, e: Event)
    requires Base(w) && Traced(w) && Allowed(w, e)
    ensures var v := Step(w, e);
            forall r :: r in v.s.requests && v.s.requests[r].status.Approved? ==> NamesMade(v, v.s.requests[r])
  {
    var v := Step(w, e);
    forall r | r in v.s.requests && v.s.requests[r].status.Approved?
      ensures NamesMade(v, v.s.requests[r])
    {
      var q := v.s.requests[r];
      StepApproves(w, e, r);
      if r in w.s.requests && w.s.requests[r] == q {
        var i :| 0 <= i < |w.made| && w.made[i].rid == q.id && w.made[i].id == q.catalogModelId && Over(w, w.made[i]);
        OverStays(w, e, i);
      } else {
        NamerWrites(w, e, r);
      }
    }
  }

  lemma NamerWrites(w: World, e: Event, r: string)
    requires Base(w) && Traced(w) && e.Advance? && Allowed(w, e) && w.crew[e.pid].Copied? && w.crew[e.pid].req.id == r
    requires r in w.s.requests
    ensures NamesMade(Step(w, e), Step(w, e).s.requests[r])
  {
    var v := Step(w, e);
    var i :| 0 <= i < |w.made| && w.made[i].pid == e.pid;
    assert Maker(w, w.made[i]) && v.made[i] == w.made[i] && Over(v, v.made[i]);
    StoredIsSeen(w, r);
  }

  /** An approval about to write finds its request not approved by any other. */
  lemma NotYetApproved(w: World, p: nat)
    requires Base(w) && Traced(w) && p in w.crew && w.crew[p].Copied?
    ensures NotApproved(w.s.requests, w.crew[p].req.id)
  {
    var rid := w.crew[p].req.id;
    var j :| 0 <= j < |w.made| && w.made[j].pid == p;
    assert Maker(w, w.made[j]);
    if rid in w.s.requests {
      StoredIsSeen(w, rid);
      forall i | 0 <= i < |w.made| && w.made[i].rid == rid
        ensures i == j
      {
        SameRequestSameModel(w, i, j);
      }
    }
  }

  /** While a request is stored, only one model was made for it. */
  lemma SameRequestSameModel(w: World, i: nat, j: nat)
    requires Base(w) && i < |w.made| && j < |w.made| && w.made[i].rid == w.made[j].rid
    requires Follows(w, w.made[i].rid, w.made[i].name) && Follows(w, w.made[j].rid, w.made[j].name)
    requires w.made[i].rid in w.s.requests
    ensures i == j
  {
    MadeOnce(w, i, j);
  }

  /** With what it should find, no step takes a model's name away. */
  lemma NameStays(w: World, e: Event, m: Made)
    requires DraftsOk(w) && Allowed(w, e) && Found(w, e) && NamedFor(w.s.requests, m)
    requires e.Advance? && w.crew[e.pid].Copied? ==> NotApproved(w.s.requests, w.crew[e.pid].req.id)
    ensures NamedFor(Step(w, e).s.requests, m)
  {
    assert e.Advance? && w.crew[e.pid].Drafted? ==> DraftOk(w, w.crew[e.pid].req);
  }

  lemma WriterNames(w: World, e: Event, m: Made)
    requires e.Advance? && Allowed(w, e) && Found(w, e) && w.crew[e.pid].Copied? && m.pid == e.pid && Maker(w, m)
    ensures NamedFor(Step(w, e).s.requests, m)
  {
  }

  lemma StepKeepsAll(w: World, e: Event)
    requires Base(w) && Traced(w) && Allowed(w, e) && AllKept(w) && Found(w, e)
    ensures AllKept(Step(w, e))
  {
    var v := Step(w, e);
    StepMovesOne(w, e);
    if e.Advance? && w.crew[e.pid].Copied? {
      NotYetApproved(w, e.pid);
    }
    forall i | 0 <= i < |v.made|
      ensures Kept(v, v.made[i])
    {
      if i < |w.made| {
        var m := w.made[i];
        assert v.made[i] == m && Kept(w, m) && Maker(w, m);
        if Over(w, m) {
          NameStays(w, e, m);
        } else if Over(v, m) {
          FinishesByWriting(w, e, m);
          WriterNames(w, e, m);
        }
      }
    }
  }

  lemma FinishesByWriting(w: World, e: Event, m: Made)
    requires Allowed(w, e) && Maker(w, m) && !Over(w, m) && Over(Step(w, e), m)
    ensures e.Advance? && e.pid == m.pid && w.crew[e.pid].Copied?
  {
  }

  /** A step that does not find what it should leaves some model unnamed. */
  lemma StepLosesOne(w: World, e: Event)
    requires Base(w) && Traced(w) && Allowed(w, e) && !Found(w, e)
    ensures !AllKept(Step(w, e))
  {
    var v := Step(w, e);
    var t := w.crew[e.pid];
    if t.Copied? {
      var i :| 0 <= i < |w.made| && w.made[i].pid == e.pid;
      assert Maker(w, w.made[i]);
      WritesNothing(w, e, w.made[i]);
      assert v.made[i] == w.made[i];
    } else {
      var r := w.s.requests[if t.Leaving? then t.rid else t.req.id];
      StoredIsSeen(w, r.id);
      var i :| 0 <= i < |w.made| && w.made[i].rid == r.id && w.made[i].id == r.catalogModelId && Over(w, w.made[i]);
      TakesName(w, e, w.made[i]);
      OverStays(w, e, i);
    }
  }

  lemma WritesNothing(w: World, e: Event, m: Made)
    requires e.Advance? && Allowed(w, e) && !Found(w, e) && w.crew[e.pid].Copied? && m.pid == e.pid && Maker(w, m)
    ensures Step(w, e).made == w.made && !Kept(Step(w, e), m)
  {
  }

  lemma TakesName(w: World, e: Event, m: Made)
    requires e.Advance? && Allowed(w, e) && !Found(w, e) && !w.crew[e.pid].Copied?
    requires m.rid == if w.crew[e.pid].Leaving? then w.crew[e.pid].rid else w.crew[e.pid].req.id
    ensures !NamedFor(Step(w, e).s.requests, m)
  {
  }

  /** A model left unnamed stays so. */
  lemma UnnamedStays(w: World, e: Event, i: nat)
    requires Base(w) && Traced(w) && Allowed(w, e) && i < |w.made| && !Kept(w, w.made[i])
    ensures !AllKept(Step(w, e))
  {
    var v := Step(w, e);
    var m := w.made[i];
    OverStays(w, e, i);
    StepKeepsSeen(w, e, m.rid);
    if m.rid in v.s.requests && v.s.requests[m.rid].status.Approved? {
      StepApproves(w, e, m.rid);
      if !(m.rid in w.s.requests && w.s.requests[m.rid] == v.s.requests[m.rid]) {
        OwnCatalogue(w, e.pid, i);
      }
    }
    assert !Kept(v, v.made[i]);
  }

  /** A review about to write does not hold a model whose review is over. */
  lemma OwnCatalogue(w: World, p: nat, i: nat)
    requires Base(w) && Traced(w) && p in w.crew && w.crew[p].Copied? && i < |w.made| && Over(w, w.made[i])
    ensures w.crew[p].catalog != w.made[i].id
  {
    var j :| 0 <= j < |w.made| && w.made[j].pid == p;
    assert Maker(w, w.made[j]) && i != j;
  }

  lemma {:induction false} KeptIff(w: World, es: seq<Event>)
    requires Base(w) && Traced(w) && AllowedRun(w, es)
    ensures AllKept(C.Run(w, es)) <==> AllKept(w) && FoundRun(w, es)
    decreases |es|
  {
    if es != [] {
      var v := Step(w, es[0]);
      StepKeepsBase(w, es[0]);
      StepKeepsTraced(w, es[0]);
      KeptIff(v, es[1..]);
      if !AllKept(w) {
        var i :| 0 <= i < |w.made| && !Kept(w, w.made[i]);
        UnnamedStays(w, es[0], i);
      } else if Found(w, es[0]) {
        StepKeepsAll(w, es[0]);
      } else {
        StepLosesOne(w, es[0]);
      }
    }
  }

  /** Over all interleavings: every catalogue model whose review is over is named
      by its own, stored, approved request if and only if each approval's last write
      finds its request stored, and each rejection's write and each delete finds it
      not approved. */
  lemma ModelsNamedIff(w: World, es: seq<Event>)
    requires C.Start(w) && AllowedRun(w, es)
    ensures AllKept(C.Run(w, es)) <==> FoundRun(w, es)
  {
    KeptIff(w, es);
  }

  // ----- runs that go wrong ------------------------------------------------

  /** The review that writes last decides, whatever the other one wrote: an
      approval overturns a rejection, and a rejection leaves its request
      rejected while still naming the published model. */
  lemma LastWriteWins(w: World, p: nat, q: nat, id: string)
    requires p in w.crew && q in w.crew && w.crew[p].Copied? && w.crew[q].Refusing?
    requires w.crew[p].req.id == w.crew[q].req.id && w.crew[p].req.id in w.s.requests
    ensures var rid := w.crew[p].req.id;
            && Move(Move(w, q, id), p, id).s.requests[rid].status.Approved?
            && Move(Move(w, p, id), q, id).s.requests[rid].status.Rejected?
            && Move(Move(w, p, id), q, id).s.requests[rid].catalogModelId == w.crew[p].catalog
  {
  }

  ghost predicate Approvable(s: State, u: H.User, rid: string) {
    && Publish.Inv(s) && u.admin && rid in s.requests && s.requests[rid].status.Pending?
    && s.requests[rid].privateModelId in s.models && !NameTaken(s.models, s.requests[rid].targetName)
  }

  function Idle(s: State): World {
    World(s, map[], [], [], [])
  }

  /** From every state the sequential workflow reaches that has an approvable
      request, two admins can get there: it ends rejected, with a catalogue
      model published and named. */
  lemma RaceIsReachable(s: State, u: H.User, rid: string, id: string)
    requires Approvable(s, u, rid) && id != "" && id !in s.minted
    ensures var es := Approval(Begin(0, Some(u), rid, "", false), u, rid, id) + [Advance(0, id)];
            AllowedRun(Idle(s), es) && !FoundRun(Idle(s), es) && !GuardedRun(Idle(s), es)
            && var v := C.Run(Idle(s), es);
               rid in v.s.requests && v.s.requests[rid].status.Rejected? && v.s.requests[rid].catalogModelId == id
               && id in v.s.models
  {
    var m := RejectsLast(s, u, rid, id);
    Appended(Idle(s), Approval(Begin(0, Some(u), rid, "", false), u, rid, id), Advance(0, id));
  }

  /** The point before the rejection's write, and what that write then does. */
  lemma RejectsLast(s: State, u: H.User, rid: string, id: string) returns (m: H.Model)
    requires Approvable(s, u, rid) && id != "" && id !in s.minted
    ensures var es := Approval(Begin(0, Some(u), rid, "", false), u, rid, id);
            AllowedRun(Idle(s), es)
            && var v := C.Run(Idle(s), es);
               && 0 in v.crew && v.crew[0].Refusing? && v.crew[0].req.id == rid && id in v.s.models
               && rid in v.s.requests && v.s.requests[rid].status.Approved?
               && var n := Move(v, 0, id).s.requests; n[rid].status.Rejected? && n[rid].catalogModelId == id
  {
    var e := Begin(0, Some(u), rid, "", false);
    m := Overtaken(Idle(s), e, u, rid, id);
    var l := Listed(Step(Idle(s), e), u, s.requests[rid], m);
    assert l.crew[0] == Refusing(u, "", s.requests[rid]);
    LastWriteWins(l, 1, 0, id);
    PublishedIs(l, u, s.requests[rid], id);
  }

  /** The requester of such a request can likewise end up withdrawing it after
      its approval, which one call at a time only an admin may: the published
      model stays and no request names it any more. */
  lemma WithdrawalRaceIsReachable(s: State, u: H.User, owner: H.User, rid: string, id: string)
    requires Approvable(s, u, rid) && id != "" && id !in s.minted
    requires !owner.admin && s.requests[rid].requestedBy == owner.name
    ensures var es := Approval(BeginWithdraw(0, Some(owner), rid), u, rid, id) + [Advance(0, id)];
            AllowedRun(Idle(s), es) && GuardedRun(Idle(s), es) && !StillOpenRun(Idle(s), es) && !FoundRun(Idle(s), es)
            && var v := C.Run(Idle(s), es); rid !in v.s.requests && !Named(v.s.requests, id) && id in v.s.models
    ensures var o := ApproveOne(s.models, s.requests, Some(u), rid, "", id);
            WithdrawOne(o.models, o.requests, Some(owner), rid).reply == Err(H.FORBIDDEN)
  {
    WithdrawalComesTooLate(s, u, owner, rid, id);
    var m := LeavesLast(s, u, owner, rid, id);
    Appended(Idle(s), Approval(BeginWithdraw(0, Some(owner), rid), u, rid, id), Advance(0, id));
  }

  /** The point before the withdrawal's delete, and what that then does. */
  lemma LeavesLast(s: State, u: H.User, owner: H.User, rid: string, id: string) returns (m: H.Model)
    requires Approvable(s, u, rid) && id != "" && id !in s.minted && s.requests[rid].requestedBy == owner.name
    ensures var es := Approval(BeginWithdraw(0, Some(owner), rid), u, rid, id);
            AllowedRun(Idle(s), es) && GuardedRun(Idle(s), es)
            && var v := C.Run(Idle(s), es);
               && 0 in v.crew && v.crew[0] == Leaving(owner, rid)
               && rid in v.s.requests && v.s.requests[rid].status.Approved?
               && var n := Move(v, 0, id).s; rid !in n.requests && !Named(n.requests, id) && id in n.models
  {
    var e := BeginWithdraw(0, Some(owner), rid);
    assert Step(Idle(s), e).crew[0] == Leaving(owner, rid);
    m := Overtaken(Idle(s), e, u, rid, id);
    PublishedIs(Listed(Step(Idle(s), e), u, s.requests[rid], m), u, s.requests[rid], id);
    NobodyNames(s, id);
  }

  lemma PublishedIs(l: World, u: H.User, r: Request, id: string)
    requires 1 in l.crew && l.crew[1] == Copied(u, "", r, id) && r.id in l.s.requests
    ensures var v := Move(l, 1, id);
            v.s.requests == l.s.requests[r.id := Decided(l.s.requests[r.id], Approving(u.name, "", id))]
            && v.s.models == l.s.models && v.crew == l.crew[1 := v.crew[1]]
  {
  }

  lemma WithdrawalComesTooLate(s: State, u: H.User, owner: H.User, rid: string, id: string)
    requires Approvable(s, u, rid) && !owner.admin
    ensures var o := ApproveOne(s.models, s.requests, Some(u), rid, "", id);
            WithdrawOne(o.models, o.requests, Some(owner), rid).reply == Err(H.FORBIDDEN)
  {
    ApprovalProgress(s, Some(u), rid, "", id);
    ApproveWrites(s, Some(u), rid, "", id);
  }

  /** And a withdrawal of a request that is still pending, hence in order, can
      land between an approval's last two calls: the model is published, the
      review is told there is no such request, and nothing names the model. */
  lemma ApprovalLosesItsRequest(s: State, u: H.User, owner: H.User, rid: string, id: string)
    requires Approvable(s, u, rid) && id != "" && id !in s.minted
    requires s.requests[rid].requestedBy == owner.name
    ensures var es := Copying([], u, rid, id) + [BeginWithdraw(0, Some(owner), rid)] + [Advance(0, id)] + [Advance(1, id)];
            AllowedRun(Idle(s), es) && GuardedRun(Idle(s), es) && StillOpenRun(Idle(s), es) && !FoundRun(Idle(s), es)
            && var v := C.Run(Idle(s), es);
               rid !in v.s.requests && !Named(v.s.requests, id) && id in v.s.models
               && 1 in v.crew && v.crew[1] == Finished(rid, Err(REQUEST_NOT_FOUND))
  {
    var w := Idle(s);
    var m := Copies(w, [], u, rid, id);
    var a := Copying([], u, rid, id);
    var b := BeginWithdraw(0, Some(owner), rid);
    Appended(w, a, b);
    assert C.Run(w, a + [b]).crew[0] == Leaving(owner, rid);
    Appended(w, a + [b], Advance(0, id));
    assert C.Run(w, a + [b] + [Advance(0, id)]).crew[1] == Copied(u, "", s.requests[rid], id);
    Appended(w, a + [b] + [Advance(0, id)], Advance(1, id));
    NobodyNames(s, id);
  }

  lemma NobodyNames(s: State, id: string)
    requires AllOk(s) && id != "" && id !in s.minted
    ensures forall r :: r in s.requests ==> s.requests[r].catalogModelId != id && s.requests[r].id == r
  {
    forall r | r in s.requests
      ensures s.requests[r].catalogModelId != id
    {
      assert RequestOk(s, s.requests[r]);
    }
  }

  /** Review 1 of `rid`, up to its model and up to its end, after other events. */
  function Copying(before: seq<Event>, u: H.User, rid: string, id: string): seq<Event> {
    before + [Begin(1, Some(u), rid, "", true)] + [Advance(1, id)] + [Advance(1, id)]
  }

  function Approval(e: Event, u: H.User, rid: string, id: string): seq<Event> {
    Copying([e], u, rid, id) + [Advance(1, id)]
  }

  /** After review 1 has made its model. */
  function Listed(w: World, u: H.User, r: Request, m: H.Model): World {
    w.(s := w.s.(models := w.s.models[m.id := m], minted := w.s.minted + {m.id}),
       crew := w.crew[1 := Copied(u, "", r, m.id)], made := w.made + [Made(1, r.id, r.targetName, m.id)])
  }

  /** A call that has passed its checks is overtaken by a whole approval. */
  lemma Overtaken(w: World, e: Event, u: H.User, rid: string, id: string) returns (m: H.Model)
    requires w.crew == map[] && Approvable(w.s, u, rid) && id != "" && id !in w.s.minted
    requires (e.Begin? || e.BeginWithdraw?) && e.pid == 0
    ensures var es := Approval(e, u, rid, id);
            m.id == id && AllowedRun(w, es) && GuardedRun(w, es)
            && C.Run(w, es) == Move(Listed(Step(w, e), u, w.s.requests[rid], m), 1, id)
    ensures w.s.requests[rid].id == rid
  {
    assert C.Run(w, []) == w;
    Appended(w, [], e);
    assert [] + [e] == [e];
    assert C.Run(w, [e]) == Step(w, e) && Step(w, e).s == w.s && Step(w, e).crew.Keys == {0};
    m := Copies(w, [e], u, rid, id);
    Appended(w, Copying([e], u, rid, id), Advance(1, id));
    NobodyNames(w.s, id);
  }

  /** Any run goes on with the first three calls of an approval. */
  lemma Copies(w: World, before: seq<Event>, u: H.User, rid: string, id: string) returns (m: H.Model)
    requires AllowedRun(w, before)
    requires var v := C.Run(w, before); 1 !in v.crew && Approvable(v.s, u, rid) && id != "" && id !in v.s.minted
    ensures var v, es := C.Run(w, before), Copying(before, u, rid, id);
            && m.id == id && AllowedRun(w, es) && C.Run(w, es) == Listed(v, u, v.s.requests[rid], m)
            && (FoundRun(w, es) <==> FoundRun(w, before)) && (GuardedRun(w, es) <==> GuardedRun(w, before))
            && (StillOpenRun(w, es) <==> StillOpenRun(w, before))
  {
    var v := C.Run(w, before);
    var v1, v2;
    v1, v2, m := FirstCalls(v, u, rid, id);
    var b, c := Begin(1, Some(u), rid, "", true), Advance(1, id);
    Appended(w, before, b);
    Appended(w, before + [b], c);
    Appended(w, before + [b] + [c], c);
  }

  lemma FirstCalls(v: World, u: H.User, rid: string, id: string) returns (v1: World, v2: World, m: H.Model)
    requires 1 !in v.crew && Approvable(v.s, u, rid) && id != "" && id !in v.s.minted
    ensures var b, c := Begin(1, Some(u), rid, "", true), Advance(1, id);
            && m.id == id && Passes(v, b, v1) && Passes(v1, c, v2) && Passes(v2, c, Listed(v, u, v.s.requests[rid], m))
  {
    var r := v.s.requests[rid];
    var got := CopyOfApprovable(v.s, u, rid, id);
    m := got.1;
    v1 := v.(crew := v.crew[1 := Fetched(u, "", r)]);
    v2 := v.(crew := v.crew[1 := Holding(u, "", r, got.0)]);
    BeginPasses(v, u, rid, v1);
    FetchPasses(v, v1, u, r, got.0, id);
    CopyLists(v, u, r, got.0, m);
    CopyPasses(v2, id, Listed(v, u, r, m));
  }

  lemma BeginPasses(v: World, u: H.User, rid: string, v1: World)
    requires 1 !in v.crew && Approvable(v.s, u, rid) && v1 == v.(crew := v.crew[1 := Fetched(u, "", v.s.requests[rid])])
    ensures Passes(v, Begin(1, Some(u), rid, "", true), v1)
  {
  }

  lemma FetchPasses(v: World, v1: World, u: H.User, r: Request, snap: H.Snapshot, id: string)
    requires v1 == v.(crew := v.crew[1 := Fetched(u, "", r)])
    requires H.PrivateSnapshot(v.s.models, Some(u), r.privateModelId) == Ok(snap)
    ensures Passes(v1, Advance(1, id), v.(crew := v.crew[1 := Holding(u, "", r, snap)]))
  {
    assert v1.crew[1 := Holding(u, "", r, snap)] == v.crew[1 := Holding(u, "", r, snap)];
  }

  lemma CopyPasses(v2: World, id: string, l: World)
    requires 1 in v2.crew && v2.crew[1].Holding? && id != "" && id !in v2.s.minted && Copy(v2, 1, v2.crew[1], id) == l
    ensures Passes(v2, Advance(1, id), l)
  {
  }

  /** A step that writes no decision and deletes nothing. */
  predicate Passes(w: World, e: Event, v: World) {
    Allowed(w, e) && Step(w, e) == v && Found(w, e) && Guard(w, e) && StillOpen(w, e)
  }

  lemma CopyLists(v: World, u: H.User, r: Request, snap: H.Snapshot, m: H.Model)
    requires H.PublicCopy(v.s.models, Some(u), CopyOf(r, snap), m.id) == Ok(m)
    ensures var t := Holding(u, "", r, snap);
            Copy(v.(crew := v.crew[1 := t]), 1, t, m.id) == Listed(v, u, r, m)
  {
    var t := Holding(u, "", r, snap);
    assert v.crew[1 := t][1 := Copied(u, "", r, m.id)] == v.crew[1 := Copied(u, "", r, m.id)];
    CopyIsListed(v.s.models, t, m.id);
  }

  lemma CopyOfApprovable(s: State, u: H.User, rid: string, id: string) returns (got: (H.Snapshot, H.Model))
    requires Approvable(s, u, rid)
    ensures var r := s.requests[rid];
            r.id == rid && H.PrivateSnapshot(s.models, Some(u), r.privateModelId) == Ok(got.0)
            && H.PublicCopy(s.models, Some(u), CopyOf(r, got.0), id) == Ok(got.1) && got.1.id == id
  {
    ApprovalProgress(s, Some(u), rid, "", id);
    var r := s.requests[rid];
    var snap := H.PrivateSnapshot(s.models, Some(u), r.privateModelId).value;
    got := (snap, H.PublicCopy(s.models, Some(u), CopyOf(r, snap), id).value);
  }

  lemma {:induction false} Appended(w: World, a: seq<Event>, e: Event)
    requires AllowedRun(w, a) && Allowed(C.Run(w, a), e)
    ensures AllowedRun(w, a + [e]) && C.Run(w, a + [e]) == Step(C.Run(w, a), e)
    ensures FoundRun(w, a + [e]) <==> FoundRun(w, a) && Found(C.Run(w, a), e)
    ensures GuardedRun(w, a + [e]) <==> GuardedRun(w, a) && Guard(C.Run(w, a), e)
    ensures StillOpenRun(w, a + [e]) <==> StillOpenRun(w, a) && StillOpen(C.Run(w, a), e)
    decreases |a|
  {
    if a == [] {
      assert [] + [e] == [e] && [e][1..] == [];
    } else {
      assert (a + [e])[1..] == a[1..] + [e];
      Appended(Step(w, a[0]), a[1..], e);
    }
  }
}
