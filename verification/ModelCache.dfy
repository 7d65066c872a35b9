/** The playground's cache of what its providers serve, with chats and edits
    running side by side: a chat reads its provider, looks into the cache, asks
    the upstream and remembers the answer in four separate steps. */
module ModelCache {
  import opened Text
  import opened Providers

  /** Where a chat stands. */
  datatype Task = Reading(p: Provider) | Asking(p: Provider) | Done(p: Provider, model: string)

  /** The registry, the cache, for the record the provider each remembered answer
      was asked of, every chat, and the clock. */
  datatype World = World(reg: Registry, cache: map<string, Served>, asked: map<string, Provider>, crew: map<nat, Task>,
                         now: nat)

  datatype Event =
    | Chat(pid: nat, id: string)
    | Look(pid: nat)
    | Answer(pid: nat, upstream: Option<seq<string>>)
    | Edit(op: Op)
    | Tick(elapsed: nat)

  predicate Allowed(w: World, e: Event) {
    match e
    case Chat(pid, _) => pid !in w.crew
    case Look(pid) => pid in w.crew && w.crew[pid].Reading?
    case Answer(pid, _) => pid in w.crew && w.crew[pid].Asking?
    case _ => true
  }

  function Step(valid: string -> bool, w: World, e: Event): World
    requires Allowed(w, e)
  {
    match e
    case Chat(pid, id) =>
      var p := ProviderForChat(w.reg, id);
      if p.Ok? then w.(crew := w.crew[pid := Reading(p.value)]) else w
    case Look(pid) =>
      var p := w.crew[pid].p;
      var known := Known(w.cache, p.id, w.now);
      w.(crew := w.crew[pid := if known.Some? then Done(p, Resolved(p.model, known.value)) else Asking(p)])
    case Answer(pid, upstream) =>
      var p := w.crew[pid].p;
      w.(cache := Learned(w.cache, p.id, upstream, w.now),
         asked := if Learns(e) then w.asked[p.id := p] else w.asked,
         crew := w.crew[pid := Done(p, Resolved(p.model, Or(upstream, [])))])
    case Edit(op) => w.(reg := Apply(valid, w.reg, op), cache := Forgotten(valid, w.reg, op, w.cache))
    case Tick(elapsed) => w.(now := w.now + elapsed)
  }

  predicate Learns(e: Event) {
    e.Answer? && e.upstream.Some? && e.upstream.value != []
  }

  predicate AllowedRun(valid: string -> bool, w: World, es: seq<Event>)
    decreases |es|
  {
    es != [] ==> Allowed(w, es[0]) && AllowedRun(valid, Step(valid, w, es[0]), es[1..])
  }

  function Run(valid: string -> bool, w: World, es: seq<Event>): World
    requires AllowedRun(valid, w, es)
    decreases |es|
  {
    if es == [] then w else Run(valid, Step(valid, w, es[0]), es[1..])
  }

  ghost predicate Start(w: World) {
    WellKeyed(w.reg) && w.cache == map[] && w.asked == map[] && w.crew == map[]
  }

  /** A chat left alone is one whole resolution; with a young entry in the cache
      it is done without asking. */
  lemma ChatAlone(valid: string -> bool, w: World, pid: nat, id: string, upstream: Option<seq<string>>)
    requires pid !in w.crew && ProviderForChat(w.reg, id).Ok?
    ensures var p := w.reg.providers[id];
            var one := ResolveOne(w.cache, p, upstream, w.now);
            var looked := Step(valid, Step(valid, w, Chat(pid, id)), Look(pid));
            if Known(w.cache, p.id, w.now).Some? then
              looked.crew[pid] == Done(p, one.0) && looked.cache == one.1
            else
              looked.crew[pid] == Asking(p)
              && var v := Step(valid, looked, Answer(pid, upstream)); v.crew[pid] == Done(p, one.0) && v.cache == one.1
  {
  }

  // ----- when the cache speaks of the providers as they are ----------------

  /** The same place asked with the same key. */
  predicate SameUpstream(p: Provider, q: Provider) {
    p.endpoint == q.endpoint && p.apiKey == q.apiKey
  }

  predicate IsCurrent(reg: Registry, p: Provider) {
    p.id in reg.providers && SameUpstream(p, reg.providers[p.id])
  }

  predicate Current(w: World, id: string) {
    id in w.asked && w.asked[id].id == id && IsCurrent(w.reg, w.asked[id])
  }

  ghost predicate Faithful(w: World) {
    forall id :: id in w.cache ==> Current(w, id)
  }

  ghost predicate FaithfulRun(valid: string -> bool, w: World, es: seq<Event>)
    requires AllowedRun(valid, w, es)
    decreases |es|
  {
    Faithful(w) && (es != [] ==> FaithfulRun(valid, Step(valid, w, es[0]), es[1..]))
  }

  /** What a chat does not check when it remembers an answer: the provider it
      asked is still registered with that endpoint and key. */
  predicate Guard(w: World, e: Event)
    requires Allowed(w, e)
  {
    Learns(e) ==> IsCurrent(w.reg, w.crew[e.pid].p)
  }

  predicate GuardedRun(valid: string -> bool, w: World, es: seq<Event>)
    requires AllowedRun(valid, w, es)
    decreases |es|
  {
    es != [] ==> Guard(w, es[0]) && GuardedRun(valid, Step(valid, w, es[0]), es[1..])
  }

  lemma StepFaithfulIff(valid: string -> bool, w: World, e: Event)
    requires WellKeyed(w.reg) && Allowed(w, e) && Faithful(w)
    ensures Faithful(Step(valid, w, e)) <==> Guard(w, e)
  {
    var v := Step(valid, w, e);
    if Learns(e) {
      var id := w.crew[e.pid].p.id;
      assert id in v.cache && v.asked[id] == w.crew[e.pid].p;
      assert forall x :: x in v.cache && x != id ==> x in w.cache && Current(w, x);
    } else if e.Edit? {
      EditKeepsFaithful(valid, w, e.op);
    }
  }

  /** An edit of a provider forgets it, and a new provider's identity is new. */
  lemma EditKeepsFaithful(valid: string -> bool, w: World, op: Op)
    requires WellKeyed(w.reg) && Faithful(w)
    ensures Faithful(Step(valid, w, Edit(op)))
  {
    var v := Step(valid, w, Edit(op));
    if op.Create? {
      NotIssued(w.reg, w.reg.counter + 1);
    }
    forall id | id in v.cache
      ensures Current(v, id)
    {
      assert id in w.cache && Current(w, id);
    }
  }

  lemma StepKeepsKeyed(valid: string -> bool, w: World, e: Event)
    requires WellKeyed(w.reg) && Allowed(w, e)
    ensures WellKeyed(Step(valid, w, e).reg)
  {
    if e.Edit? {
      ApplyWellKeyed(valid, w.reg, e.op);
    }
  }

  /** The cache speaks of the registered providers in every state of a run if and
      only if every answer remembered finds its provider unchanged. */
  lemma {:induction false} FaithfulIffGuarded(valid: string -> bool, w: World, es: seq<Event>)
    requires WellKeyed(w.reg) && Faithful(w) && AllowedRun(valid, w, es)
    ensures FaithfulRun(valid, w, es) <==> GuardedRun(valid, w, es)
    decreases |es|
  {
    if es != [] {
      var v := Step(valid, w, es[0]);
      StepFaithfulIff(valid, w, es[0]);
      StepKeepsKeyed(valid, w, es[0]);
      if Faithful(v) {
        FaithfulIffGuarded(valid, v, es[1..]);
      } else {
        assert !FaithfulRun(valid, v, es[1..]);
      }
    }
  }

  /** From any registry with a ready provider: a chat that asked before an edit of
      the endpoint and is answered after it leaves the cache with what the old
      endpoint serves. */
  lemma StaleIsReachable(valid: string -> bool, w: World, id: string, endpoint: string, served: seq<string>)
    requires Start(w) && id != "" && id in w.reg.providers && w.reg.providers[id].status in {"", "Ready"}
    requires valid(endpoint) && TrimSlashes(endpoint) != w.reg.providers[id].endpoint && served != []
    ensures var es := StaleRun(id, endpoint, served);
            AllowedRun(valid, w, es)
            && var v := Run(valid, w, es);
               Known(v.cache, id, v.now) == Some(served) && id in v.asked && v.asked[id] == w.reg.providers[id]
               && id in v.reg.providers && v.reg.providers[id].endpoint == TrimSlashes(endpoint) && !Faithful(v)
  {
    var p := w.reg.providers[id];
    var w1 := w.(crew := map[0 := Reading(p)]);
    var w2 := w.(crew := map[0 := Asking(p)]);
    var op := Patch(id, EndpointPatch(endpoint));
    var w3 := w2.(reg := Apply(valid, w.reg, op));
    assert Step(valid, w, Chat(0, id)) == w1 by { assert w.crew[0 := Reading(p)] == map[0 := Reading(p)]; }
    assert Step(valid, w1, Look(0)) == w2 by { assert w1.crew[0 := Asking(p)] == map[0 := Asking(p)]; }
    assert Step(valid, w2, Edit(op)) == w3;
    var v := Step(valid, w3, Answer(0, Some(served)));
    Prepended(valid, w3, Answer(0, Some(served)), []);
    Prepended(valid, w2, Edit(op), [Answer(0, Some(served))]);
    Prepended(valid, w1, Look(0), [Edit(op), Answer(0, Some(served))]);
    Prepended(valid, w, Chat(0, id), [Look(0), Edit(op), Answer(0, Some(served))]);
    assert id in v.cache && !Current(v, id);
  }

  function EndpointPatch(endpoint: string): ProviderPatch {
    ProviderPatch(None, None, None, Some(endpoint), None, None, None, None)
  }

  function StaleRun(id: string, endpoint: string, served: seq<string>): seq<Event> {
    [Chat(0, id)] + [Look(0), Edit(Patch(id, EndpointPatch(endpoint))), Answer(0, Some(served))]
  }

  lemma Prepended(valid: string -> bool, w: World, e: Event, es: seq<Event>)
    requires Allowed(w, e) && AllowedRun(valid, Step(valid, w, e), es)
    ensures AllowedRun(valid, w, [e] + es) && Run(valid, w, [e] + es) == Run(valid, Step(valid, w, e), es)
  {
    assert ([e] + es)[1..] == es;
  }

  // ----- stale entries end -------------------------------------------------

  /** No edit of this provider, and every chat under way for it read it as it is. */
  predicate Quiet(id: string, e: Event) {
    e.Edit? && !e.op.Create? ==> e.op.id != id
  }

  ghost predicate UpToDate(w: World, id: string) {
    && id in w.reg.providers && WellKeyed(w.reg)
    && (forall x :: x in w.cache ==> w.cache[x].fetched <= w.now)
    && (forall n :: n in w.crew && w.crew[n].p.id == id && !w.crew[n].Done? ==> SameUpstream(w.crew[n].p, w.reg.providers[id]))
  }

  /** What the cache holds about a provider is what it held before, or current. */
  predicate OldOrCurrent(w: World, old_: map<string, Served>, id: string) {
    id in w.cache ==> Current(w, id) || (id in old_ && w.cache[id] == old_[id])
  }

  lemma StepSettles(valid: string -> bool, w: World, e: Event, old_: map<string, Served>, id: string)
    requires Allowed(w, e) && Quiet(id, e) && UpToDate(w, id) && OldOrCurrent(w, old_, id)
    ensures UpToDate(Step(valid, w, e), id) && OldOrCurrent(Step(valid, w, e), old_, id)
    ensures Step(valid, w, e).reg.providers[id] == w.reg.providers[id]
  {
    StepKeepsKeyed(valid, w, e);
    match e {
      case Edit(op) => EditSettles(valid, w, op, id);
      case Answer(pid, upstream) => AnswerSettles(valid, w, e, old_, id);
      case _ =>
    }
  }

  lemma EditSettles(valid: string -> bool, w: World, op: Op, id: string)
    requires WellKeyed(w.reg) && id in w.reg.providers && Quiet(id, Edit(op))
    ensures var r := Apply(valid, w.reg, op); id in r.providers && r.providers[id] == w.reg.providers[id]
    ensures forall x :: x in Forgotten(valid, w.reg, op, w.cache) ==> x in w.cache
    ensures Forgotten(valid, w.reg, op, w.cache).Keys * {id} == w.cache.Keys * {id}
  {
    if op.Create? {
      NotIssued(w.reg, w.reg.counter + 1);
    }
  }

  lemma AnswerSettles(valid: string -> bool, w: World, e: Event, old_: map<string, Served>, id: string)
    requires Allowed(w, e) && e.Answer? && UpToDate(w, id) && OldOrCurrent(w, old_, id)
    ensures UpToDate(Step(valid, w, e), id) && OldOrCurrent(Step(valid, w, e), old_, id)
  {
  }

  lemma {:induction false} RunSettles(valid: string -> bool, w: World, es: seq<Event>, old_: map<string, Served>, id: string)
    requires AllowedRun(valid, w, es) && (forall e :: e in es ==> Quiet(id, e))
    requires UpToDate(w, id) && OldOrCurrent(w, old_, id)
    ensures UpToDate(Run(valid, w, es), id) && OldOrCurrent(Run(valid, w, es), old_, id)
    decreases |es|
  {
    if es != [] {
      StepSettles(valid, w, es[0], old_, id);
      RunSettles(valid, Step(valid, w, es[0]), es[1..], old_, id);
    }
  }

  /** However the cache got stale: once the edits of a provider are over and so
      are the chats begun before them, then after one lifetime of an entry
      whatever the cache answers about the provider is what its present endpoint
      said. */
  lemma StaleEntriesEnd(valid: string -> bool, w: World, es: seq<Event>, id: string)
    requires AllowedRun(valid, w, es) && (forall e :: e in es ==> Quiet(id, e)) && UpToDate(w, id)
    requires w.now + MODEL_CACHE_TTL <= Run(valid, w, es).now
    ensures var v := Run(valid, w, es); Known(v.cache, id, v.now).Some? ==> Current(v, id)
  {
    RunSettles(valid, w, es, w.cache, id);
  }
}
