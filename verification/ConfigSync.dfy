/** Keeping the sidecar's config file in step with the provider registry.

    A provider mutation takes the registry's lock only for the change itself;
    the hook it fires afterwards spawns a goroutine that runs EnsureConfig, which
    takes the runner's lock, snapshots the registry, renders, compares hashes,
    writes and bounces the sidecar. Everything below is about arbitrary
    interleavings of those pieces. */
module ConfigSync {
  import opened Text
  import opened Providers

  /** The parts of the config file that vary. */
  datatype Config = Config(baseURL: string, apiKey: string, agentName: string, models: map<string, Entry>)

  /** JSON printing and SHA-256, with the runner's fixed settings. */
  datatype Env = Env(marshal: Config -> string, hash: string -> string, valid: string -> bool,
                     proxyURL: string, internalToken: string, agentName: string)

  /** The hash is never the empty text and tells these texts apart. */
  predicate GoodHash(env: Env, texts: set<string>) {
    && (forall a :: a in texts ==> env.hash(a) != "")
    && (forall a, b :: a in texts && b in texts && env.hash(a) == env.hash(b) ==> a == b)
  }

  function Render(env: Env, m: map<string, Provider>): string {
    env.marshal(Config(env.proxyURL, env.internalToken, env.agentName, Catalogue(m)))
  }

  /** One attempt to restart the sidecar: the file before the write that caused
      it, and the file after. */
  datatype Bounce = Bounce(before: Option<string>, after: string)

  /** How such an attempt ends: the sidecar is killed, is not running, or can not
      be reached. */
  datatype Kill = Killed | Absent | Failed

  datatype Disk = Disk(file: Option<string>, snapHash: string, bounces: seq<Bounce>)

  /** writeConfigLocked in one piece; `writable` says whether the write works, `kill`
      how the bounce after it ends. The hash is recorded before the bounce. */
  function WriteConfig(env: Env, d: Disk, m: map<string, Provider>, writable: bool, kill: Kill): (Disk, bool) {
    var raw := Render(env, m);
    if env.hash(raw) == d.snapHash then (d, true)
    else if !writable then (d, false)
    else (Disk(Some(raw), env.hash(raw), d.bounces + [Bounce(d.file, raw)]), !kill.Failed?)
  }

  class Runner {
    var file: Option<string>
    var snapHash: string
    var bounces: seq<Bounce>

    ghost function State(): Disk
      reads this
    {
      Disk(file, snapHash, bounces)
    }

    constructor (leftover: Option<string>)
      ensures State() == Disk(leftover, "", [])
    {
      file, snapHash, bounces := leftover, "", [];
    }

    /** The order in which the snapshot lists the providers does not matter. */
    method WriteConfigLocked(env: Env, providers: seq<Provider>, ghost m: map<string, Provider>, writable: bool, kill: Kill)
      returns (ok: bool)
      requires Lists(providers, m) && Keyed(m)
      modifies this
      ensures (State(), ok) == WriteConfig(env, old(State()), m, writable, kill)
    {
      var models := BuildModels(providers, m);
      var raw := env.marshal(Config(env.proxyURL, env.internalToken, env.agentName, models));
      var hash := env.hash(raw);
      if hash == snapHash {
        return true;
      }
      if !writable {
        return false;
      }
      var before := file;
      file := Some(raw);
      snapHash := hash;
      bounces := bounces + [Bounce(before, raw)];
      return !kill.Failed?;
    }

    method EnsureConfig(env: Env, svc: Service, writable: bool, kill: Kill) returns (ok: bool)
      requires WellKeyed(svc.State())
      modifies this
      ensures (State(), ok) == WriteConfig(env, old(State()), svc.providers, writable, kill)
    {
      WellKeyedKeyed(svc.State());
      var providers := svc.SnapshotProviders();
      ok := WriteConfigLocked(env, providers, svc.providers, writable, kill);
    }
  }

  // ----- the interleaved system --------------------------------------------

  /** How far the holder of the runner's lock has got. */
  datatype Holder = Nobody | Locked | Snapped(m: map<string, Provider>) | Renamed(before: Option<string>, raw: string)

  /** The sidecar process: not running, or running with the file it read when it
      booted. */
  datatype Sidecar = Down | Up(loaded: Option<string>)

  /** `notifying` mutators have changed the registry and not yet fired the hook;
      `spawned` EnsureConfig calls wait for the lock. `lastOk` is the outcome of
      the last EnsureConfig to finish. `missed` is the text last written with a
      bounce that failed on the sidecar as it runs now. */
  datatype State = State(reg: Registry, notifying: nat, spawned: nat, holder: Holder, disk: Disk, lastOk: bool,
                         sidecar: Sidecar, missed: Option<string>)

  datatype Step =
    | Mutate(op: Op)
    | Notify
    | Request
    | Acquire
    | Snapshot
    | Skip
    | Fail
    | Rename
    | Commit(kill: Kill)
    | Boot
    | Crash

  predicate Enabled(env: Env, s: State, step: Step) {
    match step
    case Mutate(_) => true
    case Notify => s.notifying > 0
    case Request => true
    case Acquire => s.spawned > 0 && s.holder.Nobody?
    case Snapshot => s.holder.Locked?
    case Skip => s.holder.Snapped? && env.hash(Render(env, s.holder.m)) == s.disk.snapHash
    case Fail => s.holder.Snapped? && env.hash(Render(env, s.holder.m)) != s.disk.snapHash
    case Rename => s.holder.Snapped? && env.hash(Render(env, s.holder.m)) != s.disk.snapHash
    case Commit(kill) => s.holder.Renamed? && (kill.Killed? ==> s.sidecar.Up?) && (kill.Absent? ==> s.sidecar.Down?)
    case Boot => s.sidecar.Down?
    case Crash => s.sidecar.Up?
  }

  /** One atomic step; a step that is not enabled changes nothing. */
  function Next(env: Env, s: State, step: Step): State {
    if !Enabled(env, s, step) then s
    else match step
      case Mutate(op) =>
        if Accepted(env.valid, s.reg, op) then s.(reg := Apply(env.valid, s.reg, op), notifying := s.notifying + 1)
        else s
      case Notify => s.(notifying := s.notifying - 1, spawned := s.spawned + 1)
      case Request => s.(spawned := s.spawned + 1)
      case Acquire => s.(spawned := s.spawned - 1, holder := Locked)
      case Snapshot => s.(holder := Snapped(s.reg.providers))
      case Skip => s.(holder := Nobody, lastOk := true)
      case Fail => s.(holder := Nobody, lastOk := false)
      case Rename =>
        var raw := Render(env, s.holder.m);
        s.(holder := Renamed(s.disk.file, raw), disk := s.disk.(file := Some(raw)))
      case Commit(kill) =>
        s.(holder := Nobody, lastOk := !kill.Failed?,
           disk := s.disk.(snapHash := env.hash(s.holder.raw),
                           bounces := s.disk.bounces + [Bounce(s.holder.before, s.holder.raw)]),
           sidecar := if kill.Killed? then Down else s.sidecar,
           missed := if kill.Failed? && s.sidecar.Up? then Some(s.holder.raw) else None)
      case Boot => s.(sidecar := Up(s.disk.file), missed := None)
      case Crash => s.(sidecar := Down, missed := None)
  }

  function Exec(env: Env, s: State, steps: seq<Step>): State
    decreases |steps|
  {
    if steps == [] then s else Exec(env, Next(env, s, steps[0]), steps[1..])
  }

  /** What the registry renders to, at any point of the run, is among `texts`. */
  predicate Renders(env: Env, s: State, steps: seq<Step>, texts: set<string>)
    decreases |steps|
  {
    Render(env, s.reg.providers) in texts && (steps != [] ==> Renders(env, Next(env, s, steps[0]), steps[1..], texts))
  }

  /** At startup the first EnsureConfig is under way; a file may be left over
      from an earlier process, and the sidecar may be running with it. */
  function Start(reg: Registry, leftover: Option<string>, up: bool): State {
    State(reg, 0, 1, Nobody, Disk(leftover, "", []), true, if up then Up(leftover) else Down, None)
  }

  predicate Quiescent(s: State) {
    s.notifying == 0 && s.spawned == 0 && s.holder.Nobody?
  }

  // ----- safety ------------------------------------------------------------

  /** The recorded hash is the hash of a text, or nothing was written yet. */
  ghost predicate Recorded(env: Env, d: Disk, leftover: Option<string>, file: Option<string>) {
    if d.bounces == [] then d.snapHash == "" && file == leftover
    else file.Some? && d.snapHash == env.hash(file.value) && d.bounces[|d.bounces| - 1].after == file.value
  }

  /** Each restart starts from the file the previous one left, and changes it. */
  ghost predicate Chained(bounces: seq<Bounce>, leftover: Option<string>) {
    forall i :: 0 <= i < |bounces| ==> ChainedAt(bounces, leftover, i)
  }

  ghost predicate ChainedAt(bounces: seq<Bounce>, leftover: Option<string>, i: nat)
    requires i < |bounces|
  {
    if i == 0 then bounces[i].before == leftover
    else bounces[i].before == Some(bounces[i - 1].after) && bounces[i].after != bounces[i - 1].after
  }

  /** Whoever could still bring the file up to date, or that it is. */
  ghost predicate OnTheWay(env: Env, s: State) {
    var want := Render(env, s.reg.providers);
    || s.notifying > 0 || s.spawned > 0 || s.holder.Locked?
    || (s.holder.Snapped? && Render(env, s.holder.m) == want)
    || (s.holder.Renamed? && s.holder.raw == want)
    || (s.holder.Nobody? && (s.lastOk ==> s.disk.file == Some(want)))
  }

  /** Every text in play is one of the rendered ones. */
  ghost predicate Known(env: Env, s: State, texts: set<string>) {
    && Render(env, s.reg.providers) in texts
    && (s.holder.Snapped? ==> Render(env, s.holder.m) in texts)
    && (s.holder.Renamed? ==> s.holder.raw in texts)
    && (s.disk.bounces != [] ==> s.disk.bounces[|s.disk.bounces| - 1].after in texts)
  }

  /** What the running sidecar has loaded, in terms of the file. */
  ghost predicate LoadedOk(s: State) {
    var settled := if s.holder.Renamed? then s.holder.before else s.disk.file;
    && (s.missed.Some? ==> s.sidecar.Up? && settled == s.missed)
    && (s.sidecar.Up? && s.missed.None? ==> s.sidecar.loaded == settled || s.sidecar.loaded == s.disk.file)
  }

  ghost predicate Inv(env: Env, s: State, leftover: Option<string>, texts: set<string>) {
    && WellKeyed(s.reg)
    && OnTheWay(env, s)
    && Known(env, s, texts)
    && LoadedOk(s)
    && Chained(s.disk.bounces, leftover)
    && (if s.holder.Renamed? then
          && Recorded(env, s.disk, leftover, s.holder.before)
          && s.disk.file == Some(s.holder.raw) && env.hash(s.holder.raw) != s.disk.snapHash
        else Recorded(env, s.disk, leftover, s.disk.file))
  }

  lemma NextKeepsInv(env: Env, s: State, step: Step, leftover: Option<string>, texts: set<string>)
    requires GoodHash(env, texts) && Inv(env, s, leftover, texts)
    requires Render(env, Next(env, s, step).reg.providers) in texts
    ensures Inv(env, Next(env, s, step), leftover, texts)
  {
    if step.Mutate? {
      ApplyWellKeyed(env.valid, s.reg, step.op);
    }
    if step.Commit? && s.holder.Renamed? {
      var b := s.disk.bounces;
      var b' := b + [Bounce(s.holder.before, s.holder.raw)];
      forall i | 0 <= i < |b'|
        ensures ChainedAt(b', leftover, i)
      {
        assert i < |b| ==> ChainedAt(b, leftover, i);
      }
    }
  }

  lemma {:induction false} ExecKeepsInv(env: Env, s: State, steps: seq<Step>, leftover: Option<string>, texts: set<string>)
    requires GoodHash(env, texts) && Inv(env, s, leftover, texts) && Renders(env, s, steps, texts)
    ensures Inv(env, Exec(env, s, steps), leftover, texts)
    decreases |steps|
  {
    if steps != [] {
      NextKeepsInv(env, s, steps[0], leftover, texts);
      ExecKeepsInv(env, Next(env, s, steps[0]), steps[1..], leftover, texts);
    }
  }

  /** The hash tells apart what this run renders. */
  predicate Told(env: Env, reg: Registry, leftover: Option<string>, up: bool, steps: seq<Step>, texts: set<string>) {
    GoodHash(env, texts) && Renders(env, Start(reg, leftover, up), steps, texts)
  }

  lemma RunKeepsInv(env: Env, reg: Registry, leftover: Option<string>, up: bool, steps: seq<Step>, texts: set<string>)
    requires WellKeyed(reg) && Told(env, reg, leftover, up, steps, texts)
    ensures Inv(env, Exec(env, Start(reg, leftover, up), steps), leftover, texts)
  {
    ExecKeepsInv(env, Start(reg, leftover, up), steps, leftover, texts);
  }

  /** Convergence: after any interleaving, once nothing is outstanding and the
      last EnsureConfig did not fail, the file is what the current providers
      render to. */
  lemma Converges(env: Env, reg: Registry, leftover: Option<string>, up: bool, steps: seq<Step>, texts: set<string>)
    requires WellKeyed(reg) && Told(env, reg, leftover, up, steps, texts)
    ensures var s := Exec(env, Start(reg, leftover, up), steps);
            Quiescent(s) && s.lastOk ==> s.disk.file == Some(Render(env, s.reg.providers))
  {
    RunKeepsInv(env, reg, leftover, up, steps, texts);
  }

  /** Whenever the runner's lock is free, the recorded hash is that of the file,
      unless nothing was ever written. */
  lemma HashMatchesFile(env: Env, reg: Registry, leftover: Option<string>, up: bool, steps: seq<Step>, texts: set<string>)
    requires WellKeyed(reg) && Told(env, reg, leftover, up, steps, texts)
    ensures var s := Exec(env, Start(reg, leftover, up), steps);
            s.holder.Nobody? ==>
              if s.disk.bounces == [] then s.disk.snapHash == "" && s.disk.file == leftover
              else s.disk.file.Some? && s.disk.snapHash == env.hash(s.disk.file.value)
  {
    RunKeepsInv(env, reg, leftover, up, steps, texts);
  }

  /** Every attempted restart follows a real change of the file; the first one
      does exactly when the leftover file differed. */
  lemma BouncesFollowChanges(env: Env, reg: Registry, leftover: Option<string>, up: bool, steps: seq<Step>,
                             texts: set<string>)
    requires WellKeyed(reg) && Told(env, reg, leftover, up, steps, texts)
    ensures var b := Exec(env, Start(reg, leftover, up), steps).disk.bounces;
            forall i :: 0 <= i < |b| ==>
              (b[i].before != Some(b[i].after) <==> i > 0 || leftover != Some(b[0].after))
  {
    RunKeepsInv(env, reg, leftover, up, steps, texts);
    var b := Exec(env, Start(reg, leftover, up), steps).disk.bounces;
    forall i | 0 <= i < |b|
      ensures b[i].before != Some(b[i].after) <==> i > 0 || leftover != Some(b[0].after)
    {
      assert ChainedAt(b, leftover, i);
    }
  }

  /** In a quiet, converged system every catalogue key in the file routes to the
      provider it was made from, exactly when the model name is routable and the
      provider is ready. */
  lemma ConvergedFileRoutes(env: Env, reg: Registry, leftover: Option<string>, up: bool, steps: seq<Step>,
                            texts: set<string>, id: string)
    requires WellKeyed(reg) && Told(env, reg, leftover, up, steps, texts)
    requires var s := Exec(env, Start(reg, leftover, up), steps);
             Quiescent(s) && s.lastOk && id in s.reg.providers
    ensures var s := Exec(env, Start(reg, leftover, up), steps);
            var p := s.reg.providers[id];
            s.disk.file == Some(Render(env, s.reg.providers))
            && Key(p) in Catalogue(s.reg.providers)
            && (Route(s.reg, Key(p)) == Ok((p, p.model)) <==> Routable(p.model) && (p.status == "" || p.status == "Ready"))
  {
    RunKeepsInv(env, reg, leftover, up, steps, texts);
    CatalogueRoutes(Exec(env, Start(reg, leftover, up), steps).reg, id);
  }

  // ----- what the sidecar runs with ----------------------------------------

  /** While no write is being committed, a running sidecar has loaded the file on
      disk exactly when no bounce has failed since it booted, or the last one that
      did followed a write of the very text it had booted with. */
  lemma SidecarIsCurrentIff(env: Env, reg: Registry, leftover: Option<string>, up: bool, steps: seq<Step>,
                            texts: set<string>)
    requires WellKeyed(reg) && Told(env, reg, leftover, up, steps, texts)
    ensures var s := Exec(env, Start(reg, leftover, up), steps);
            !s.holder.Renamed? && s.sidecar.Up? ==>
              (s.sidecar.loaded == s.disk.file <==> s.missed.None? || s.missed == s.sidecar.loaded)
  {
    RunKeepsInv(env, reg, leftover, up, steps, texts);
  }

  /** With no failed bounce, a quiet converged system's sidecar runs with the
      current providers. */
  lemma SidecarConverges(env: Env, reg: Registry, leftover: Option<string>, up: bool, steps: seq<Step>,
                         texts: set<string>)
    requires WellKeyed(reg) && Told(env, reg, leftover, up, steps, texts)
    ensures var s := Exec(env, Start(reg, leftover, up), steps);
            Quiescent(s) && s.lastOk && s.sidecar.Up? && s.missed.None?
            ==> s.sidecar.loaded == Some(Render(env, s.reg.providers))
  {
    RunKeepsInv(env, reg, leftover, up, steps, texts);
  }

  /** The steps of one EnsureConfig that finds something to write. */
  function WriteRun(kill: Kill): seq<Step> {
    [Acquire, Snapshot, Rename, Commit(kill)]
  }

  /** A failed bounce sticks: the write is on disk and recorded, so any further
      EnsureConfig finds nothing to do and succeeds, and the sidecar keeps what it
      had loaded before. */
  lemma FailedBounceSticks(env: Env, s: State, more: nat)
    requires s.holder.Nobody? && s.spawned > 0 && s.sidecar.Up?
    requires env.hash(Render(env, s.reg.providers)) != s.disk.snapHash
    ensures var t := Exec(env, s, WriteRun(Failed));
            var u := Exec(env, t, Repeats(more));
            && !t.lastOk && t.disk.file == Some(Render(env, s.reg.providers)) && t.sidecar == s.sidecar
            && u.disk == t.disk && u.sidecar == s.sidecar && (more > 0 ==> u.lastOk)
  {
    var raw := Render(env, s.reg.providers);
    var s1 := Next(env, s, Acquire);
    var s2 := Next(env, s1, Snapshot);
    var s3 := Next(env, s2, Rename);
    var t := Next(env, s3, Commit(Failed));
    FourSteps(env, s, Acquire, Snapshot, Rename, Commit(Failed));
    assert t.disk.snapHash == env.hash(raw) && t.reg == s.reg && t.holder.Nobody?;
    RepeatsChangeNothing(env, t, more);
  }

  lemma FourSteps(env: Env, s: State, a: Step, b: Step, c: Step, d: Step)
    ensures Exec(env, s, [a, b, c, d]) == Next(env, Next(env, Next(env, Next(env, s, a), b), c), d)
  {
    assert [a, b, c, d][1..] == [b, c, d] && [b, c, d][1..] == [c, d] && [c, d][1..] == [d] && [d][1..] == [];
    assert Exec(env, s, [a, b, c, d]) == Exec(env, Next(env, s, a), [b, c, d]);
    assert Exec(env, Next(env, s, a), [b, c, d]) == Exec(env, Next(env, Next(env, s, a), b), [c, d]);
    var t := Next(env, Next(env, Next(env, s, a), b), c);
    assert Exec(env, t, [d]) == Exec(env, Next(env, t, d), []);
  }

  /** Further EnsureConfig calls, one after the other. */
  function Repeats(n: nat): seq<Step> {
    if n == 0 then [] else [Request, Acquire, Snapshot, Skip] + Repeats(n - 1)
  }

  lemma {:induction false} RepeatsChangeNothing(env: Env, t: State, n: nat)
    requires t.holder.Nobody? && t.disk.snapHash == env.hash(Render(env, t.reg.providers))
    ensures var u := Exec(env, t, Repeats(n));
            u.disk == t.disk && u.sidecar == t.sidecar && u.reg == t.reg && u.holder.Nobody? && (n > 0 ==> u.lastOk)
    decreases n
  {
    if n > 0 {
      ExecConcat(env, t, [Request, Acquire, Snapshot, Skip], Repeats(n - 1));
      FourSteps(env, t, Request, Acquire, Snapshot, Skip);
      var v := Exec(env, t, [Request, Acquire, Snapshot, Skip]);
      assert v.disk == t.disk && v.sidecar == t.sidecar && v.reg == t.reg && v.holder.Nobody? && v.lastOk;
      RepeatsChangeNothing(env, v, n - 1);
    }
  }

  // ----- progress ----------------------------------------------------------

  /** Work left before the system is quiet. */
  function Left(s: State): nat {
    6 * s.notifying + 5 * s.spawned
    + (match s.holder case Nobody => 0 case Locked => 3 case Snapped(_) => 2 case Renamed(_, _) => 1)
  }

  /** Steps that finish work already started. */
  predicate Finishing(step: Step) { !step.Mutate? && !step.Request? && !step.Boot? && !step.Crash? }

  predicate Working(step: Step) { Finishing(step) && !step.Fail? && (step.Commit? ==> !step.kill.Failed?) }

  /** Without new mutations or requests the system cannot run for ever, and it
      never stops short of quiet: each finishing step that is enabled uses up
      work, and one that does not fail is enabled until nothing is outstanding. */
  lemma WorkRunsOut(env: Env, s: State)
    ensures forall step :: Finishing(step) && Enabled(env, s, step) ==> Left(Next(env, s, step)) < Left(s)
    ensures Quiescent(s) <==> forall step :: Finishing(step) ==> !Enabled(env, s, step)
    ensures !Quiescent(s) ==> exists step :: Working(step) && Enabled(env, s, step)
  {
    var next := NextUp(env, s);
    assert !Quiescent(s) ==> Working(next) && Enabled(env, s, next);
  }

  /** The step a scheduler would take to finish outstanding work. */
  function NextUp(env: Env, s: State): Step {
    match s.holder
    case Renamed(_, _) => Commit(if s.sidecar.Up? then Killed else Absent)
    case Snapped(m) => if env.hash(Render(env, m)) == s.disk.snapHash then Skip else Rename
    case Locked => Snapshot
    case Nobody => if s.spawned > 0 then Acquire else Notify
  }

  /** The steps that drain a state when every write and every bounce works. */
  function Drain(env: Env, s: State): seq<Step>
    decreases Left(s)
  {
    if Quiescent(s) then []
    else [NextUp(env, s)] + Drain(env, Next(env, s, NextUp(env, s)))
  }

  lemma {:induction false} ExecConcat(env: Env, s: State, a: seq<Step>, b: seq<Step>)
    ensures Exec(env, s, a + b) == Exec(env, Exec(env, s, a), b)
    decreases |a|
  {
    if a == [] {
      assert a + b == b;
    } else {
      assert (a + b)[1..] == a[1..] + b;
      ExecConcat(env, Next(env, s, a[0]), a[1..], b);
    }
  }

  lemma {:induction false} RendersConcat(env: Env, s: State, a: seq<Step>, b: seq<Step>, texts: set<string>)
    ensures Renders(env, s, a + b, texts) <==> Renders(env, s, a, texts) && Renders(env, Exec(env, s, a), b, texts)
    decreases |a|
  {
    if a == [] {
      assert a + b == b;
    } else {
      assert (a + b)[1..] == a[1..] + b;
      RendersConcat(env, Next(env, s, a[0]), a[1..], b, texts);
    }
  }

  lemma {:induction false} DrainQuiets(env: Env, s: State, texts: set<string>)
    ensures var t := Exec(env, s, Drain(env, s));
            Quiescent(t) && t.reg == s.reg && (!Quiescent(s) ==> t.lastOk)
    ensures Render(env, s.reg.providers) in texts ==> Renders(env, s, Drain(env, s), texts)
    decreases Left(s)
  {
    if !Quiescent(s) {
      var n := Next(env, s, NextUp(env, s));
      DrainQuiets(env, n, texts);
      assert Drain(env, s)[1..] == Drain(env, n);
    }
  }

  /** From whatever point an interleaving has reached, one more request and no
      more failures bring the file to the current providers. */
  lemma AlwaysRecovers(env: Env, reg: Registry, leftover: Option<string>, up: bool, steps: seq<Step>, texts: set<string>)
    requires WellKeyed(reg) && Told(env, reg, leftover, up, steps, texts)
    ensures var s := Exec(env, Start(reg, leftover, up), steps + [Request]);
            var t := Exec(env, s, Drain(env, s));
            Quiescent(t) && t.reg == s.reg && t.disk.file == Some(Render(env, s.reg.providers))
  {
    var s0 := Start(reg, leftover, up);
    var s1 := Exec(env, s0, steps);
    var s := Exec(env, s0, steps + [Request]);
    RunKeepsInv(env, reg, leftover, up, steps, texts);
    ExecConcat(env, s0, steps, [Request]);
    RendersConcat(env, s0, steps, [Request], texts);
    assert [Request][1..] == [];
    assert s == Next(env, s1, Request);
    DrainQuiets(env, s, texts);
    ExecConcat(env, s0, steps + [Request], Drain(env, s));
    RendersConcat(env, s0, steps + [Request], Drain(env, s), texts);
    Converges(env, reg, leftover, up, steps + [Request] + Drain(env, s), texts);
  }

  /** Uninterrupted, the fine steps do what the one-piece method does. */
  lemma StepsRefineMethod(env: Env, s: State, writable: bool, kill: Kill)
    requires s.holder.Nobody? && s.spawned > 0
    requires (kill.Killed? ==> s.sidecar.Up?) && (kill.Absent? ==> s.sidecar.Down?)
    ensures var raw := Render(env, s.reg.providers);
            var tail := if env.hash(raw) == s.disk.snapHash then [Skip]
                        else if writable then [Rename, Commit(kill)] else [Fail];
            var t := Exec(env, s, [Acquire, Snapshot] + tail);
            var w := WriteConfig(env, s.disk, s.reg.providers, writable, kill);
            t == s.(spawned := s.spawned - 1, disk := w.0, lastOk := w.1, sidecar := t.sidecar, missed := t.missed)
  {
    var raw := Render(env, s.reg.providers);
    var tail := if env.hash(raw) == s.disk.snapHash then [Skip]
                else if writable then [Rename, Commit(kill)] else [Fail];
    ExecConcat(env, s, [Acquire, Snapshot], tail);
    var s1 := Next(env, s, Acquire);
    var s2 := Next(env, s1, Snapshot);
    assert [Acquire, Snapshot][1..] == [Snapshot] && [Snapshot][1..] == [];
    assert Exec(env, s, [Acquire, Snapshot]) == s2;
    assert tail[1..] == (if |tail| == 2 then [Commit(kill)] else []);
    assert [Commit(kill)][1..] == [];
    var s3 := Next(env, s2, tail[0]);
    assert Exec(env, s2, tail) == Exec(env, s3, tail[1..]);
    if |tail| == 2 {
      assert Exec(env, s3, [Commit(kill)]) == Next(env, s3, Commit(kill));
    }
  }

  // ----- no call is lost ---------------------------------------------------

  /** The mutations of a run, in order. */
  function Mutations(steps: seq<Step>): seq<Op> {
    if steps == [] then []
    else (if steps[0].Mutate? then [steps[0].op] else []) + Mutations(steps[1..])
  }

  /** The registry of a run is that of its mutations alone. */
  lemma {:induction false} RegistryIs(env: Env, s: State, steps: seq<Step>)
    ensures Exec(env, s, steps).reg == Run(env.valid, s.reg, Mutations(steps))
    decreases |steps|
  {
    if steps != [] {
      RegistryIs(env, Next(env, s, steps[0]), steps[1..]);
      NextRegistry(env, s, steps[0]);
      var rest := Mutations(steps[1..]);
      if steps[0].Mutate? {
        assert ([steps[0].op] + rest)[1..] == rest;
      } else {
        assert [] + rest == rest;
      }
    }
  }

  lemma NextRegistry(env: Env, s: State, step: Step)
    ensures Next(env, s, step).reg == if step.Mutate? then Providers.Apply(env.valid, s.reg, step.op) else s.reg
  {
  }

  /** EnsureConfig calls due or under way. */
  function Pending(s: State): nat {
    s.notifying + s.spawned + if s.holder.Nobody? then 0 else 1
  }

  /** The calls a run asks for: one for each mutation that is accepted, and one for
      each request. */
  function Asked(env: Env, s: State, steps: seq<Step>): nat
    decreases |steps|
  {
    if steps == [] then 0
    else (if steps[0].Request? || (steps[0].Mutate? && Accepted(env.valid, s.reg, steps[0].op)) then 1 else 0)
         + Asked(env, Next(env, s, steps[0]), steps[1..])
  }

  /** The calls that end in it. */
  function Ended(env: Env, s: State, steps: seq<Step>): nat
    decreases |steps|
  {
    if steps == [] then 0
    else (if Enabled(env, s, steps[0]) && (steps[0].Skip? || steps[0].Fail? || steps[0].Commit?) then 1 else 0)
         + Ended(env, Next(env, s, steps[0]), steps[1..])
  }

  /** Every call asked for is pending until it ends, and no other call is made. */
  lemma {:induction false} NoCallIsLost(env: Env, s: State, steps: seq<Step>)
    ensures Pending(Exec(env, s, steps)) + Ended(env, s, steps) == Pending(s) + Asked(env, s, steps)
    decreases |steps|
  {
    if steps != [] {
      NoCallIsLost(env, Next(env, s, steps[0]), steps[1..]);
      OneStepPending(env, s, steps[0]);
    }
  }

  lemma OneStepPending(env: Env, s: State, step: Step)
    ensures Pending(Next(env, s, step))
            + (if Enabled(env, s, step) && (step.Skip? || step.Fail? || step.Commit?) then 1 else 0)
            == Pending(s) + if step.Request? || (step.Mutate? && Accepted(env.valid, s.reg, step.op)) then 1 else 0
  {
  }
}
