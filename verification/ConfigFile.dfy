/** What the sidecar reads in the config file that is kept in step with the
    registry: its settings and its models, one by one. */
module ConfigFile {
  import opened Text
  import opened Providers
  import opened ConfigSync

  /** `parse` reads back every config printed as one of these texts. */
  ghost predicate ReadsBack(env: Env, parse: string -> Option<Config>, texts: set<string>) {
    forall c: Config :: env.marshal(c) in texts ==> parse(env.marshal(c)) == Some(c)
  }

  /** Each provider has one model, under its identity and model name; with no
      providers there is one placeholder. */
  ghost predicate ListsModels(models: map<string, Entry>, ps: map<string, Provider>) {
    && (forall id :: id in ps ==>
          var key := id + "/" + ps[id].model;
          key in models && models[key].name == ps[id].name + " — " + ps[id].model && !models[key].toolCall)
    && (ps != map[] ==> |models| == |ps| && forall key :: key in models ==> IsKeyOfSome(key, ps))
    && (ps == map[] ==> models == map["placeholder/none" := Entry("no providers configured", false)])
  }

  ghost predicate IsKeyOfSome(key: string, ps: map<string, Provider>) {
    exists id :: id in ps && key == id + "/" + ps[id].model
  }

  /** The text reads as a config with the runner's settings and these providers. */
  ghost predicate Shows(env: Env, parse: string -> Option<Config>, text: string, ps: map<string, Provider>) {
    match parse(text)
    case None => false
    case Some(c) =>
      && c.baseURL == env.proxyURL && c.apiKey == env.internalToken && c.agentName == env.agentName
      && ListsModels(c.models, ps)
  }

  lemma CatalogueLists(ps: map<string, Provider>)
    requires Keyed(ps)
    ensures ListsModels(Catalogue(ps), ps)
  {
    if ps != map[] {
      CatalogueIs(ps);
      CatalogueSize(ps);
      forall key | key in Catalogue(ps)
        ensures IsKeyOfSome(key, ps)
      {
        assert IdPart(key) in ps && key == Key(ps[IdPart(key)]);
      }
    }
  }

  lemma RenderShows(env: Env, parse: string -> Option<Config>, ps: map<string, Provider>, texts: set<string>)
    requires Keyed(ps) && ReadsBack(env, parse, texts) && Render(env, ps) in texts
    ensures Shows(env, parse, Render(env, ps), ps)
  {
    CatalogueLists(ps);
    assert parse(Render(env, ps)) == Some(Config(env.proxyURL, env.internalToken, env.agentName, Catalogue(ps)));
  }

  /** One EnsureConfig in one piece: it changes the file only to one that shows the
      providers, records that file's hash, and attempts one restart for it. It
      changes nothing and succeeds only where that hash is recorded already. */
  lemma OneWriteShows(env: Env, parse: string -> Option<Config>, d: Disk, ps: map<string, Provider>, writable: bool,
                      kill: Kill, texts: set<string>)
    requires Keyed(ps) && ReadsBack(env, parse, texts) && Render(env, ps) in texts
    ensures var (d', ok) := WriteConfig(env, d, ps, writable, kill);
            && (d' != d ==> d'.file.Some? && Shows(env, parse, d'.file.value, ps)
                            && d'.snapHash == env.hash(d'.file.value)
                            && d'.bounces == d.bounces + [Bounce(d.file, d'.file.value)]
                            && writable && (ok <==> !kill.Failed?))
            && (d' == d ==> (ok ==> exists text :: Shows(env, parse, text, ps) && d.snapHash == env.hash(text))
                            && (!ok ==> !writable))
  {
    RenderShows(env, parse, ps, texts);
    var (d', ok) := WriteConfig(env, d, ps, writable, kill);
    if d' == d && ok {
      assert |d.bounces + [Bounce(d.file, Render(env, ps))]| != |d.bounces|;
      assert Shows(env, parse, Render(env, ps), ps) && d.snapHash == env.hash(Render(env, ps));
    }
  }

  /** After any interleaving, once nothing is outstanding and the last EnsureConfig
      did not fail, the file on disk shows the providers of the registry. */
  lemma ConvergedFileShows(env: Env, parse: string -> Option<Config>, reg: Registry, leftover: Option<string>, up: bool,
                           steps: seq<Step>, texts: set<string>)
    requires WellKeyed(reg) && Told(env, reg, leftover, up, steps, texts) && ReadsBack(env, parse, texts)
    ensures var s := Exec(env, Start(reg, leftover, up), steps);
            Quiescent(s) && s.lastOk ==> s.disk.file.Some? && Shows(env, parse, s.disk.file.value, s.reg.providers)
  {
    RunKeepsInv(env, reg, leftover, up, steps, texts);
    var s := Exec(env, Start(reg, leftover, up), steps);
    WellKeyedKeyed(s.reg);
    RenderShows(env, parse, s.reg.providers, texts);
  }

  /** And so does what a running sidecar has loaded, if no restart failed on it. */
  lemma SidecarShows(env: Env, parse: string -> Option<Config>, reg: Registry, leftover: Option<string>, up: bool,
                     steps: seq<Step>, texts: set<string>)
    requires WellKeyed(reg) && Told(env, reg, leftover, up, steps, texts) && ReadsBack(env, parse, texts)
    ensures var s := Exec(env, Start(reg, leftover, up), steps);
            Quiescent(s) && s.lastOk && s.sidecar.Up? && s.missed.None?
            ==> s.sidecar.loaded.Some? && Shows(env, parse, s.sidecar.loaded.value, s.reg.providers)
  {
    ConvergedFileShows(env, parse, reg, leftover, up, steps, texts);
    Converges(env, reg, leftover, up, steps, texts);
    SidecarConverges(env, reg, leftover, up, steps, texts);
  }

  /** From whatever point, one more request and no more failures leave a file that
      shows the providers. */
  lemma RecoveredFileShows(env: Env, parse: string -> Option<Config>, reg: Registry, leftover: Option<string>, up: bool,
                           steps: seq<Step>, texts: set<string>)
    requires WellKeyed(reg) && Told(env, reg, leftover, up, steps, texts) && ReadsBack(env, parse, texts)
    ensures var s := Exec(env, Start(reg, leftover, up), steps + [Request]);
            var t := Exec(env, s, Drain(env, s));
            t.disk.file.Some? && Shows(env, parse, t.disk.file.value, s.reg.providers)
  {
    AlwaysRecovers(env, reg, leftover, up, steps, texts);
    RunKeepsInv(env, reg, leftover, up, steps, texts);
    var s := Exec(env, Start(reg, leftover, up), steps);
    ExecConcat(env, Start(reg, leftover, up), steps, [Request]);
    assert Exec(env, s, [Request]).reg == s.reg;
    WellKeyedKeyed(s.reg);
    RenderShows(env, parse, s.reg.providers, texts);
  }

  lemma FirstRun(env: Env, reg: Registry, leftover: Option<string>, up: bool, kill: Kill)
    requires env.hash(Render(env, reg.providers)) != ""
    requires (kill.Killed? ==> up) && (kill.Absent? ==> !up)
    ensures var t, raw := Exec(env, Start(reg, leftover, up), WriteRun(kill)), Render(env, reg.providers);
            && Quiescent(t) && t.reg == reg && (t.lastOk <==> !kill.Failed?)
            && t.disk.file == Some(raw) && t.disk.bounces == [Bounce(leftover, raw)]
            && t.sidecar == if up && !kill.Killed? then Up(leftover) else Down
  {
    var s := Start(reg, leftover, up);
    var s2 := Next(env, Next(env, s, Acquire), Snapshot);
    var s3 := Next(env, s2, Rename);
    FourSteps(env, s, Acquire, Snapshot, Rename, Commit(kill));
    assert s2.holder == Snapped(reg.providers) && s2.disk.snapHash == "";
    assert s3.holder == Renamed(leftover, Render(env, reg.providers)) && s3.disk.bounces == [];
  }

  /** The first EnsureConfig, if nothing interferes and its write works: it leaves
      such a file, whatever was there, and nothing else to do; a sidecar that was up
      still runs with what was there, unless it could be killed. */
  lemma StartupShows(env: Env, parse: string -> Option<Config>, reg: Registry, leftover: Option<string>, up: bool,
                     kill: Kill, texts: set<string>)
    requires WellKeyed(reg) && ReadsBack(env, parse, texts) && GoodHash(env, texts) && Render(env, reg.providers) in texts
    requires (kill.Killed? ==> up) && (kill.Absent? ==> !up)
    ensures var t := Exec(env, Start(reg, leftover, up), WriteRun(kill));
            && Quiescent(t) && t.reg == reg && (t.lastOk <==> !kill.Failed?)
            && t.disk.file.Some? && Shows(env, parse, t.disk.file.value, reg.providers)
            && t.disk.bounces == [Bounce(leftover, t.disk.file.value)]
            && t.sidecar == if up && !kill.Killed? then Up(leftover) else Down
  {
    WellKeyedKeyed(reg);
    RenderShows(env, parse, reg.providers, texts);
    FirstRun(env, reg, leftover, up, kill);
  }
}
