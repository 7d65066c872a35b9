/** What a change of the registry leaves in every field, what a chat is sent, and
    where a chat request goes. */
module ProviderFacts {
  import opened Text
  import opened Decimal
  import opened Providers

  /** `r` is `s` without the slashes at its end. */
  ghost predicate LessSlashes(s: string, r: string) {
    && r <= s && (r != "" ==> r[|r| - 1] != '/')
    && forall i :: |r| <= i < |s| ==> s[i] == '/'
  }

  lemma {:induction false} TrimSlashesIs(s: string)
    ensures LessSlashes(s, TrimSlashes(s))
  {
    if s != "" && s[|s| - 1] == '/' {
      TrimSlashesIs(s[..|s| - 1]);
    }
  }

  /** llm- and at least six digits, those of `n`, with no zero too many. */
  ghost predicate IsSerial(id: string, n: nat) {
    && |id| >= 10 && id[..4] == "llm-" && AllDigits(id[4..]) && Val(id[4..]) == n
    && (|id| > 10 ==> id[4] != '0')
  }

  lemma {:induction false} ZerosAre(n: nat)
    ensures |Zeros(n)| == n
  {
    if n > 0 {
      ZerosAre(n - 1);
    }
  }

  lemma IdIsSerial(n: nat)
    ensures IsSerial(IdOf(n), n)
  {
    var d, p := Dec(n), Pad6(Dec(n));
    IdValue(n);
    ZerosAre(if |d| < 6 then 6 - |d| else 0);
    assert IdOf(n)[4..] == p && (|d| >= 6 ==> p == d);
  }

  /** Registering a provider: what it takes, and what is stored under the next
      identity. */
  lemma CreateEffect(valid: string -> bool, r: Registry, req: ProviderRequest)
    ensures var r' := Apply(valid, r, Create(req));
            var ok := req.name != "" && req.endpoint != "" && req.model != "" && valid(req.endpoint);
            && (Accepted(valid, r, Create(req)) <==> ok)
            && (!ok ==> r' == r)
            && (ok ==> exists id ::
                  IsSerial(id, r.counter + 1) && r'.counter == r.counter + 1
                  && r'.providers.Keys == r.providers.Keys + {id}
                  && (forall x :: x in r.providers && x != id ==> r'.providers[x] == r.providers[x])
                  && IsMade(r'.providers[id], id, req))
  {
    var id := IdOf(r.counter + 1);
    IdIsSerial(r.counter + 1);
    TrimSlashesIs(req.endpoint);
    if Accepted(valid, r, Create(req)) {
      var r' := Apply(valid, r, Create(req));
      assert r'.providers.Keys == r.providers.Keys + {id};
      assert IsMade(r'.providers[id], id, req);
    }
  }

  /** The fields of a new provider: those asked for, external and ready unless it
      says otherwise. */
  ghost predicate IsMade(p: Provider, id: string, req: ProviderRequest) {
    && p.id == id && p.name == req.name && p.namespace_ == req.namespace_ && p.apiKey == req.apiKey
    && p.model == req.model && p.description == req.description && LessSlashes(req.endpoint, p.endpoint)
    && p.source == (if req.source == "" then "external" else req.source)
    && p.status == (if req.status == "" then "Ready" else req.status)
  }

  /** A field after an edit. */
  predicate IsEdited<T(==)>(after: T, before: T, edit: Option<T>) {
    match edit
    case None => after == before
    case Some(v) => after == v
  }

  /** Editing a provider: every field named in the edit, and no other. */
  lemma PatchEffect(valid: string -> bool, r: Registry, id: string, patch: ProviderPatch)
    ensures var r' := Apply(valid, r, Patch(id, patch));
            var ok := id in r.providers && (patch.endpoint.None? || valid(patch.endpoint.value));
            && (Accepted(valid, r, Patch(id, patch)) <==> ok)
            && (!ok ==> r' == r)
            && (ok ==>
                  && r'.counter == r.counter && r'.providers.Keys == r.providers.Keys
                  && (forall x :: x in r.providers && x != id ==> r'.providers[x] == r.providers[x])
                  && IsPatched(r'.providers[id], r.providers[id], patch))
  {
    if Accepted(valid, r, Patch(id, patch)) {
      var p := r.providers[id];
      var r' := Apply(valid, r, Patch(id, patch));
      assert r'.providers.Keys == r.providers.Keys;
      PatchedFields(p, patch);
    }
  }

  ghost predicate IsPatched(q: Provider, p: Provider, patch: ProviderPatch) {
    && q.id == p.id && IsEdited(q.name, p.name, patch.name) && IsEdited(q.source, p.source, patch.source)
    && IsEdited(q.namespace_, p.namespace_, patch.namespace_) && IsEdited(q.apiKey, p.apiKey, patch.apiKey)
    && IsEdited(q.model, p.model, patch.model) && IsEdited(q.description, p.description, patch.description)
    && IsEdited(q.status, p.status, patch.status)
    && (match patch.endpoint
        case None => q.endpoint == p.endpoint
        case Some(e) => LessSlashes(e, q.endpoint))
  }

  lemma PatchedFields(p: Provider, patch: ProviderPatch)
    ensures IsPatched(Patched(p, patch), p, patch)
  {
    if patch.endpoint.Some? {
      TrimSlashesIs(patch.endpoint.value);
    }
  }

  /** Deleting a provider takes it away and nothing else. */
  lemma DeleteEffect(valid: string -> bool, r: Registry, id: string)
    ensures var r' := Apply(valid, r, Delete(id));
            && (Accepted(valid, r, Delete(id)) <==> id in r.providers)
            && r'.counter == r.counter
            && (forall x :: x in r'.providers <==> x in r.providers && x != id)
            && (forall x :: x in r'.providers ==> r'.providers[x] == r.providers[x])
  {
    var r' := Apply(valid, r, Delete(id));
    assert id !in r.providers ==> r'.providers == r.providers;
  }

  /** Answers show all of a provider but its API key. */
  lemma AnswersHide(p: Provider, q: Provider)
    ensures Redact(p).apiKey == ""
    ensures Redact(p) == Redact(q) <==> p.(apiKey := q.apiKey) == q
  {
  }

  /** A chat's model name: what was listed less than five minutes ago is asked
      again, else the upstream is; the provider's own model unless that list has
      others only, and then its first. The cache keeps a list that was got now and
      holds something. */
  lemma ResolutionIs(cache: map<string, Served>, p: Provider, upstream: Option<seq<string>>, now: nat)
    ensures var (model, cache') := ResolveOne(cache, p, upstream, now);
            var young := p.id in cache && now < cache[p.id].fetched + 5 * 60 * 1_000_000_000;
            var listed := if young then cache[p.id].models else if upstream.Some? then upstream.value else [];
            && model == (if listed == [] || p.model in listed then p.model else listed[0])
            && (young || listed == [] ==> cache' == cache)
            && (!young && listed != [] ==> cache'.Keys == cache.Keys + {p.id} && cache'[p.id] == Served(listed, now))
            && (forall id :: id in cache && id != p.id ==> id in cache' && cache'[id] == cache[id])
  {
  }

  /** What an edit does to the cache. */
  lemma EditForgets(valid: string -> bool, r: Registry, op: Op, cache: map<string, Served>)
    ensures var cache' := Forgotten(valid, r, op, cache);
            && (op.Create? || !Accepted(valid, r, op) ==> cache' == cache)
            && (!op.Create? && Accepted(valid, r, op) ==>
                  (forall id :: id in cache' <==> id in cache && id != op.id)
                  && (forall id :: id in cache' ==> cache'[id] == cache[id]))
  {
  }

  // ----- where a request goes ----------------------------------------------

  /** Whom a chat of the console's own is with, or why it is with nobody. */
  lemma ChatIsWith(r: Registry, id: string)
    ensures ProviderForChat(r, id).Ok?
            <==> id != "" && id in r.providers && (r.providers[id].status == "" || r.providers[id].status == "Ready")
    ensures ProviderForChat(r, id).Ok? ==> ProviderForChat(r, id).value == r.providers[id]
    ensures ProviderForChat(r, id).Err? ==>
              ProviderForChat(r, id).error == if id == "" then "providerId is required"
                                              else if id in r.providers then "provider is not ready"
                                              else "provider not found"
  {
  }

  /** No white space at either end. */
  predicate Tight(s: string) {
    s != "" && !IsIn(Unicode, s[0]) && !IsIn(Unicode, s[|s| - 1])
  }

  lemma {:induction false} SpacesBefore(before: string, t: string)
    requires forall c :: c in before ==> IsIn(Unicode, c)
    ensures TrimLeft(Unicode, before + t) == TrimLeft(Unicode, t)
  {
    if before == "" {
      assert before + t == t;
    } else {
      assert before[0] in before;
      assert (before + t)[1..] == before[1..] + t;
      SpacesBefore(before[1..], t);
    }
  }

  lemma SpacesAround(before: string, s: string, after: string)
    requires Tight(s) && (forall c :: c in before + after ==> IsIn(Unicode, c))
    ensures Trim(Unicode, before + s + after) == s
  {
    assert forall c :: c in before ==> c in before + after;
    assert forall c :: c in after ==> c in before + after;
    AppendAssoc(before, s, after);
    SpacesBefore(before, s + after);
    assert (s + after)[0] == s[0];
    TrimRightSpaces(Unicode, s, after);
  }

  /** A request for `id/model`, with any space around it, goes to that provider
      under that model name if it is there and ready; otherwise it is told why. */
  lemma RequestGoesTo(r: Registry, before: string, id: string, model: string, after: string)
    requires '/' !in id && id != "" && model != "" && Tight(id + "/" + model)
    requires forall c :: c in before + after ==> IsIn(Unicode, c)
    ensures Route(r, before + (id + "/" + model) + after)
            == if id !in r.providers then Err("provider not found")
               else if r.providers[id].status == "" || r.providers[id].status == "Ready" then Ok((r.providers[id], model))
               else Err("provider is not ready")
  {
    SpacesAround(before, id + "/" + model, after);
    SlashAt(id, model);
  }

  lemma SlashAt(id: string, model: string)
    requires '/' !in id
    ensures IndexOf(id + "/" + model, "/") == |id|
    ensures (id + "/" + model)[..|id|] == id && (id + "/" + model)[|id| + 1..] == model
  {
    var k := id + "/" + model;
    assert At(k, "/", |id|) by { assert k[|id|..|id| + 1] == "/"; }
    var i := IndexOf(k, "/");
    assert k[i..i + 1][0] == k[i];
  }

  /** Blank requests, and those without both halves, are refused before any
      provider is looked up. */
  lemma RequestRefused(r: Registry, before: string, s: string, after: string)
    requires forall c :: c in before + after ==> IsIn(Unicode, c)
    requires s == "" || (Tight(s) && ('/' !in s || s[0] == '/' || (s[|s| - 1] == '/' && '/' !in s[..|s| - 1])))
    ensures Route(r, before + s + after)
            == if s == "" then Err("model is required in request body")
               else Err("model must be of the form '<knaic-provider-id>/<upstream-model>'")
  {
    if s == "" {
      assert before + s + after == before + after;
      TrimAllSpaces(Unicode, before + after);
    } else {
      SpacesAround(before, s, after);
      SlashPlace(s);
    }
  }

  lemma SlashPlace(s: string)
    requires s != "" && ('/' !in s || s[0] == '/' || (s[|s| - 1] == '/' && '/' !in s[..|s| - 1]))
    ensures IndexOf(s, "/") <= 0 || IndexOf(s, "/") == |s| - 1
  {
    forall j | At(s, "/", j)
      ensures s[j] == '/'
    {
      assert s[j..j + 1][0] == s[j];
    }
    if s[0] == '/' {
      assert At(s, "/", 0) by { assert s[0..1] == "/"; }
    } else if '/' in s {
      SlashAt(s[..|s| - 1], "");
      assert s == s[..|s| - 1] + "/" + "";
    }
  }
}
