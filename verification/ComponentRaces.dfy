/** Component operations running side by side. Detection reads the entry, takes
    the shared scan and writes; an installation or removal reads, marks the entry
    Installing, calls Helm, drops the cached scan and writes. Only those single
    store, cache and Helm calls are atomic. */
module ComponentRaces {
  import opened Text
  import opened Components

  /** Where one operation stands between two calls. */
  datatype Task =
    | Looked(name: string, read: Component)
    | Scanned(name: string, read: Component, snap: Snapshot)
    | Ready(act: Action, name: string)
    | Marked(act: Action, name: string)
    | Answered(act: Action, name: string, helm: Result<string>)
    | Cleared(act: Action, name: string, helm: Result<string>)
    | Finished(ok: bool)

  datatype World = World(s: State, crew: map<nat, Task>)

  datatype Event =
    | Begin(pid: nat, act: Action, name: string)
    | Look(pid: nat, name: string)
    | Advance(pid: nat, helm: Result<string>, expired: bool, scan: Snapshot)
    | Other(op: Op)

  predicate Allowed(w: World, e: Event) {
    match e
    case Begin(pid, _, _) => pid !in w.crew
    case Look(pid, _) => pid !in w.crew
    case Advance(pid, _, _, _) => pid in w.crew
    case Other(op) => op.Import? || op.Remove? || op.PatchVersion?
  }

  /** store.Update: nothing happens when the entry is gone. */
  function Update(s: State, name: string, c: Component): State {
    if name in s.items then s.(items := s.items[name := c]) else s
  }

  /** The closing write of an operation that called Helm. */
  function Close(w: World, pid: nat, act: Action, name: string, helm: Result<string>): World {
    World(if name in w.s.items then Update(w.s, name, Closed(w.s.items[name], act, helm)) else w.s,
          w.crew[pid := Finished(name in w.s.items)])
  }

  function MarkInstalling(s: State, name: string): State {
    if name in s.items then Update(s, name, s.items[name].(status := Installing)) else s
  }

  /** Detection's closing write: the verdict on the copy it read, put into the
      entry as it now is. */
  function Settle(w: World, pid: nat, name: string, read: Component, snap: Snapshot): World {
    var v := Resolve(read, snap);
    if name !in w.s.items then w.(crew := w.crew[pid := Finished(false)])
    else
      World(w.s.(items := w.s.items[name := Settled(w.s.items[name], v, w.s.systemNamespace, NoteOf(v))],
                 log := if v.ByKnaic? then w.s.log + [SeenKnaic(name)] else w.s.log),
            w.crew[pid := Finished(true)])
  }

  function Answer(w: World, pid: nat, act: Action, name: string, helm: Result<string>): World {
    World(w.s.(log := Called(w.s.log, act, name, helm)), w.crew[pid := Answered(act, name, helm)])
  }

  function Move(w: World, pid: nat, helm: Result<string>, expired: bool, scan: Snapshot): World
    requires pid in w.crew
  {
    match w.crew[pid]
    case Looked(name, read) =>
      var snap := if w.s.cache.Some? && !expired then w.s.cache.value else scan;
      World(w.s.(cache := Some(snap)),
            w.crew[pid := if read.status.Installing? then Finished(true) else Scanned(name, read, snap)])
    case Scanned(name, read, snap) => Settle(w, pid, name, read, snap)
    case Ready(act, name) =>
      if act.Reconciles? then Answer(w, pid, act, name, helm)
      else World(MarkInstalling(w.s, name), w.crew[pid := Marked(act, name)])
    case Marked(act, name) => Answer(w, pid, act, name, helm)
    case Answered(act, name, h) =>
      if Invalidates(act, h) then World(w.s.(cache := None), w.crew[pid := Cleared(act, name, h)])
      else Close(w, pid, act, name, h)
    case Cleared(act, name, h) => Close(w, pid, act, name, h)
    case Finished(_) => w
  }

  function Step(w: World, e: Event): World
    requires Allowed(w, e)
  {
    match e
    case Begin(pid, act, name) =>
      w.(crew := w.crew[pid := if name in w.s.items && Allows(act, w.s.items[name]) then Ready(act, name)
                               else Finished(false)])
    case Look(pid, name) =>
      w.(crew := w.crew[pid := if name in w.s.items then Looked(name, w.s.items[name]) else Finished(false)])
    case Advance(pid, helm, expired, scan) => Move(w, pid, helm, expired, scan)
    case Other(op) => w.(s := Apply(w.s, op).0)
  }

  predicate AllowedRun(w: World, es: seq<Event>)
    decreases |es|
  {
    es != [] ==> Allowed(w, es[0]) && AllowedRun(Step(w, es[0]), es[1..])
  }

  function Run(w: World, es: seq<Event>): World
    requires AllowedRun(w, es)
    decreases |es|
  {
    if es == [] then w else Run(Step(w, es[0]), es[1..])
  }

  ghost predicate Start(w: World) {
    Components.Fresh(w.s) && w.crew == map[]
  }

  // ----- uninterrupted, the steps are the operations -----------------------

  lemma DetectAlone(w: World, pid: nat, name: string, helm: Result<string>, expired: bool, scan: Snapshot)
    requires pid !in w.crew
    ensures var a := Step(w, Look(pid, name));
            var v := Move(Move(a, pid, helm, expired, scan), pid, helm, expired, scan);
            v.s == DetectComponent(w.s, name, expired, scan).0
            && v.crew[pid] == Finished(DetectComponent(w.s, name, expired, scan).1)
  {
  }

  lemma ActionAlone(w: World, pid: nat, act: Action, name: string, helm: Result<string>, expired: bool, scan: Snapshot)
    requires pid !in w.crew
    ensures var a := Step(w, Begin(pid, act, name));
            var b := Move(Move(a, pid, helm, expired, scan), pid, helm, expired, scan);
            var v := Move(Move(b, pid, helm, expired, scan), pid, helm, expired, scan);
            v.s == Perform(w.s, act, name, helm).0 && v.crew[pid] == Finished(Perform(w.s, act, name, helm).1)
  {
    var a := Step(w, Begin(pid, act, name));
    if name in w.s.items && Allows(act, w.s.items[name]) {
      var c := w.s.items[name];
      var b := Move(a, pid, helm, expired, scan);
      var d := Move(b, pid, helm, expired, scan);
      if act.Reconciles? {
        assert b.crew[pid] == Answered(act, name, helm) && b.s.items == w.s.items;
        assert d.crew[pid] == Finished(true);
      } else {
        assert b.crew[pid] == Marked(act, name) && b.s.items == w.s.items[name := c.(status := Installing)];
        assert d.crew[pid] == Answered(act, name, helm) && d.s.items == b.s.items;
        var f := Move(d, pid, helm, expired, scan);
        assert Closed(c.(status := Installing), act, helm) == Closed(c, act, helm);
        assert b.s.items[name := Closed(c, act, helm)] == w.s.items[name := Closed(c, act, helm)];
        if Invalidates(act, helm) {
          assert f.crew[pid] == Cleared(act, name, helm);
        } else {
          assert f.crew[pid] == Finished(true);
        }
      }
    }
  }

  // ----- Installing marks --------------------------------------------------

  /** The operation has marked the entry and not yet written its outcome. */
  predicate Owns(t: Task, name: string) {
    (t.Marked? || ((t.Answered? || t.Cleared?) && !t.act.Reconciles?)) && t.name == name
  }

  predicate OwnedBy(w: World, pid: nat, name: string) {
    pid in w.crew && Owns(w.crew[pid], name)
  }

  /** Every open mark still shows. */
  ghost predicate Held(w: World) {
    forall pid: nat, name :: OwnedBy(w, pid, name) && name in w.s.items ==> w.s.items[name].status.Installing?
  }

  /** The entry whose status a step settles, if any: a detection's or a Helm
      operation's closing write, or an import under a free name. */
  function Writes(w: World, e: Event): Option<string>
    requires Allowed(w, e)
  {
    match e
    case Advance(pid, _, _, _) =>
      var t := w.crew[pid];
      if (t.Scanned? || t.Cleared? || (t.Answered? && !Invalidates(t.act, t.helm))) && t.name in w.s.items then Some(t.name)
      else None
    case Other(op) => if op.Import? && Apply(w.s, op).1 then Some(op.req.name) else None
    case _ => None
  }

  function Actor(e: Event): Option<nat> {
    if e.Advance? then Some(e.pid) else None
  }

  /** Nobody but the actor has a mark on the entry. */
  ghost predicate OnlyOwner(w: World, name: string, actor: Option<nat>) {
    forall pid: nat :: OwnedBy(w, pid, name) ==> Some(pid) == actor
  }

  /** A status is settled only while nobody else has a mark on the entry. */
  ghost predicate Guard(w: World, e: Event)
    requires Allowed(w, e)
  {
    Writes(w, e).Some? ==> OnlyOwner(w, Writes(w, e).value, Actor(e))
  }

  lemma SettledStatus(c: Component, v: Verdict, ns: string)
    ensures !Settled(c, v, ns, NoteOf(v)).status.Installing?
  {
  }

  lemma StepHolds(w: World, e: Event)
    requires Held(w) && Allowed(w, e)
    ensures Held(Step(w, e)) <==> Guard(w, e)
  {
    if Guard(w, e) {
      forall pid: nat, name | OwnedBy(Step(w, e), pid, name) && name in Step(w, e).s.items
        ensures Step(w, e).s.items[name].status.Installing?
      {
        MarkStays(w, e, pid, name);
      }
    } else {
      var n := Writes(w, e).value;
      var pid: nat :| OwnedBy(w, pid, n) && Some(pid) != Actor(e);
      WriteSettles(w, e);
      OthersKeepMarks(w, e, pid, n);
    }
  }

  lemma OthersKeepMarks(w: World, e: Event, pid: nat, name: string)
    requires Allowed(w, e) && Some(pid) != Actor(e) && OwnedBy(w, pid, name)
    ensures OwnedBy(Step(w, e), pid, name)
  {
  }

  lemma WriteSettles(w: World, e: Event)
    requires Allowed(w, e) && Writes(w, e).Some?
    ensures var n := Writes(w, e).value; n in Step(w, e).s.items && !Step(w, e).s.items[n].status.Installing?
  {
    if e.Advance? && w.crew[e.pid].Scanned? {
      var t := w.crew[e.pid];
      SettledStatus(w.s.items[t.name], Resolve(t.read, t.snap), w.s.systemNamespace);
    }
  }

  lemma MarkStays(w: World, e: Event, pid: nat, name: string)
    requires Held(w) && Allowed(w, e) && Guard(w, e) && OwnedBy(Step(w, e), pid, name) && name in Step(w, e).s.items
    ensures Step(w, e).s.items[name].status.Installing?
  {
    if e.Advance? && e.pid == pid && w.crew[pid].Ready? {
    } else {
      assert OwnedBy(w, pid, name);
      assert Writes(w, e) != Some(name);
      OnlyWritesSettle(w, e, name);
    }
  }

  /** A step that does not settle an entry's status leaves it or marks it. */
  lemma OnlyWritesSettle(w: World, e: Event, name: string)
    requires Allowed(w, e) && Writes(w, e) != Some(name) && name in Step(w, e).s.items
    ensures name in w.s.items
    ensures Step(w, e).s.items[name].status == w.s.items[name].status || Step(w, e).s.items[name].status.Installing?
  {
  }

  ghost predicate AlwaysHeld(w: World, es: seq<Event>)
    requires AllowedRun(w, es)
    decreases |es|
  {
    Held(w) && (es != [] ==> AlwaysHeld(Step(w, es[0]), es[1..]))
  }

  ghost predicate GuardedRun(w: World, es: seq<Event>)
    requires AllowedRun(w, es)
    decreases |es|
  {
    es != [] ==> Guard(w, es[0]) && GuardedRun(Step(w, es[0]), es[1..])
  }

  lemma {:induction false} HeldIffGuarded(w: World, es: seq<Event>)
    requires Held(w) && AllowedRun(w, es)
    ensures AlwaysHeld(w, es) <==> GuardedRun(w, es)
    decreases |es|
  {
    if es != [] {
      StepHolds(w, es[0]);
      if Guard(w, es[0]) {
        HeldIffGuarded(Step(w, es[0]), es[1..]);
      } else {
        assert !Held(Step(w, es[0]));
        NotAlways(Step(w, es[0]), es[1..]);
      }
    }
  }

  lemma NotAlways(w: World, es: seq<Event>)
    requires AllowedRun(w, es) && !Held(w)
    ensures !AlwaysHeld(w, es)
  {
  }

  /** Over all runs: every Installing mark shows until its owner's closing write
      if and only if no detection, and no other operation, settles an entry's
      status while somebody else has a mark on it. */
  lemma MarksHoldIffGuarded(w: World, es: seq<Event>)
    requires Start(w) && AllowedRun(w, es)
    ensures AlwaysHeld(w, es) <==> GuardedRun(w, es)
  {
    HeldIffGuarded(w, es);
  }

  /** The overwriting happens: from any state with a component that can be
      installed, a detection that looked just before the installation marks it
      writes in the middle of the installation, and the mark is gone. */
  lemma OverwriteIsReachable(s: State, name: string, scan: Snapshot)
    requires name in s.items && Allows(Installs, s.items[name]) && !s.items[name].status.Installing?
    ensures var w := World(s, map[]);
            var step := Advance(0, Err(""), true, scan);
            var es := [Look(0, name), Begin(1, Installs, name), Advance(1, Err(""), true, scan), step, step];
            AllowedRun(w, es)
            && var v := Run(w, es);
               OwnedBy(v, 1, name) && name in v.s.items && !v.s.items[name].status.Installing?
  {
    var w := World(s, map[]);
    var read := s.items[name];
    var step := Advance(0, Err(""), true, scan);
    var mark := Advance(1, Err(""), true, scan);
    var w1 := World(s, map[0 := Looked(name, read)]);
    var w2 := w1.(crew := w1.crew[1 := Ready(Installs, name)]);
    var w3 := World(MarkInstalling(s, name), w2.crew[1 := Marked(Installs, name)]);
    LateWrite(w3, name, read, scan);
    Prepended(w2, mark, [step, step]);
    Prepended(w1, Begin(1, Installs, name), [mark, step, step]);
    Prepended(w, Look(0, name), [Begin(1, Installs, name), mark, step, step]);
  }

  lemma LateWrite(w: World, name: string, read: Component, scan: Snapshot)
    requires 0 in w.crew && w.crew[0] == Looked(name, read) && !read.status.Installing? && name in w.s.items
    requires OwnedBy(w, 1, name)
    ensures var step := Advance(0, Err(""), true, scan);
            AllowedRun(w, [step, step])
            && var v := Run(w, [step, step]);
               OwnedBy(v, 1, name) && name in v.s.items && !v.s.items[name].status.Installing?
  {
    var step := Advance(0, Err(""), true, scan);
    var w4 := Step(w, step);
    assert w4.crew[0] == Scanned(name, read, scan) && w4.s.items == w.s.items;
    OthersKeepMarks(w, step, 1, name);
    WriteSettles(w4, step);
    OthersKeepMarks(w4, step, 1, name);
    Prepended(w4, step, []);
    Prepended(w, step, [step]);
  }


  // ----- what survives interleaving ----------------------------------------

  ghost predicate SomeOwner(w: World, name: string) {
    exists pid: nat :: OwnedBy(w, pid, name)
  }

  /** What an entry tells is backed by the record, and by whoever works on it. */
  ghost predicate EntryOk(w: World, name: string, c: Component) {
    && (c.status.Installing? ==> SomeOwner(w, name))
    && (c.status.NotInstalled? ==> c.managedBy.Nobody?)
    && (c.managedBy.Knaic? ==> Ours(w.s.log, name))
  }

  /** A removal was decided on an entry that knaic managed; a successful
      installation is on record before it is written. */
  ghost predicate TaskOk(log: seq<Components.Event>, t: Task) {
    match t
    case Ready(act, name) => act.Uninstalls? ==> Ours(log, name)
    case Marked(act, name) => !act.Reconciles? && (act.Uninstalls? ==> Ours(log, name))
    case Answered(act, name, helm) => act.Installs? && helm.Ok? ==> Ours(log, name)
    case Cleared(act, name, helm) => act.Installs? && helm.Ok? ==> Ours(log, name)
    case _ => true
  }

  ghost predicate Inv(w: World) {
    && (forall n :: n in w.s.items ==> EntryOk(w, n, w.s.items[n]))
    && (forall p :: p in w.crew ==> TaskOk(w.s.log, w.crew[p]))
    && Earned(w.s.log)
  }

  ghost predicate Grows(log: seq<Components.Event>, after: seq<Components.Event>) {
    forall n :: Ours(log, n) ==> Ours(after, n)
  }

  lemma StepGrowsLog(w: World, e: Event)
    requires Inv(w) && Allowed(w, e)
    ensures Grows(w.s.log, Step(w, e).s.log) && Earned(Step(w, e).s.log)
  {
    if e.Advance? {
      match w.crew[e.pid] {
        case Scanned(name, read, snap) => LogGrows(w.s.log, SeenKnaic(name));
        case Ready(act, name) =>
        case Marked(act, name) => CalledGrows(w.s.log, act, name, e.helm, w.crew[e.pid]);
        case _ =>
      }
    }
  }

  lemma CalledGrows(log: seq<Components.Event>, act: Action, name: string, helm: Result<string>, t: Task)
    requires Earned(log) && t == Marked(act, name) && TaskOk(log, t)
    ensures Earned(Called(log, act, name, helm)) && Grows(log, Called(log, act, name, helm))
    ensures act.Installs? && helm.Ok? ==> Ours(Called(log, act, name, helm), name)
  {
    match act {
      case Installs => LogGrows(log, HelmInstalled(name));
      case Uninstalls => LogGrows(log, HelmUninstall(name));
      case Reconciles =>
    }
  }

  lemma StepKeepsTasks(w: World, e: Event)
    requires Inv(w) && Allowed(w, e)
    ensures forall p :: p in Step(w, e).crew ==> TaskOk(Step(w, e).s.log, Step(w, e).crew[p])
  {
    var v := Step(w, e);
    StepGrowsLog(w, e);
    forall p | p in v.crew
      ensures TaskOk(v.s.log, v.crew[p])
    {
      if p in w.crew && v.crew[p] == w.crew[p] {
        assert TaskOk(w.s.log, w.crew[p]);
      } else {
        ActorKeepsTask(w, e, p);
      }
    }
  }

  lemma ActorKeepsTask(w: World, e: Event, p: nat)
    requires Inv(w) && Allowed(w, e) && p in Step(w, e).crew && (p !in w.crew || Step(w, e).crew[p] != w.crew[p])
    ensures TaskOk(Step(w, e).s.log, Step(w, e).crew[p])
  {
    if e.Begin? && e.name in w.s.items {
      assert EntryOk(w, e.name, w.s.items[e.name]);
    }
    if e.Advance? {
      assert TaskOk(w.s.log, w.crew[p]);
      if w.crew[p].Marked? {
        CalledGrows(w.s.log, w.crew[p].act, w.crew[p].name, e.helm, w.crew[p]);
      }
    }
  }

  /** An entry a step leaves alone keeps its backing, unless the step closes the
      very mark it shows. */
  lemma StepKeepsEntry(w: World, e: Event, n: string)
    requires Inv(w) && Allowed(w, e) && n in Step(w, e).s.items
    ensures EntryOk(Step(w, e), n, Step(w, e).s.items[n])
  {
    var v := Step(w, e);
    StepGrowsLog(w, e);
    if e.Advance? && Touches(w.crew[e.pid], n) {
      ActorKeepsEntry(w, e, n);
    } else if n in w.s.items {
      assert EntryOk(w, n, w.s.items[n]);
      UntouchedEntry(w, e, n);
      if w.s.items[n].status.Installing? {
        var pid: nat :| OwnedBy(w, pid, n);
        OwnerStays(w, e, pid, n);
      }
    }
  }

  /** The task is about this entry. */
  predicate Touches(t: Task, n: string) {
    !t.Finished? && t.name == n
  }

  lemma UntouchedEntry(w: World, e: Event, n: string)
    requires Allowed(w, e) && n in w.s.items && n in Step(w, e).s.items
    requires e.Advance? ==> !Touches(w.crew[e.pid], n)
    ensures Step(w, e).s.items[n].status == w.s.items[n].status && Step(w, e).s.items[n].managedBy == w.s.items[n].managedBy
  {
  }

  lemma OwnerStays(w: World, e: Event, pid: nat, n: string)
    requires Allowed(w, e) && OwnedBy(w, pid, n) && (e.Advance? ==> !Touches(w.crew[e.pid], n))
    ensures OwnedBy(Step(w, e), pid, n)
  {
  }

  lemma ActorKeepsEntry(w: World, e: Event, n: string)
    requires Inv(w) && Allowed(w, e) && e.Advance? && Touches(w.crew[e.pid], n) && n in Step(w, e).s.items
    requires Grows(w.s.log, Step(w, e).s.log)
    ensures EntryOk(Step(w, e), n, Step(w, e).s.items[n])
  {
    var v, t := Step(w, e), w.crew[e.pid];
    assert n in w.s.items;
    assert EntryOk(w, n, w.s.items[n]) && TaskOk(w.s.log, t);
    match t {
      case Scanned(name, read, snap) => SettleKeepsEntry(w, e, n, read, snap);
      case Ready(act, name) =>
        if act.Reconciles? {
          SameEntry(w, e, n);
        } else {
          assert OwnedBy(v, e.pid, n);
        }
      case Marked(act, name) => SameEntry(w, e, n);
      case Looked(name, read) => SameEntry(w, e, n);
      case Answered(act, name, helm) =>
        if Invalidates(act, helm) {
          SameEntry(w, e, n);
        }
      case Cleared(act, name, helm) =>
      case Finished(_) =>
    }
  }

  lemma SettleKeepsEntry(w: World, e: Event, n: string, read: Component, snap: Snapshot)
    requires Inv(w) && Allowed(w, e) && e.Advance? && w.crew[e.pid] == Scanned(n, read, snap) && n in w.s.items
    ensures n in Step(w, e).s.items && EntryOk(Step(w, e), n, Step(w, e).s.items[n])
  {
    OthersAreNotOurs(read, snap);
    SettledStatus(w.s.items[n], Resolve(read, snap), w.s.systemNamespace);
    LogGrows(w.s.log, SeenKnaic(n));
  }

  /** A step of the actor that only moves it along: the entry and its owners stay. */
  lemma SameEntry(w: World, e: Event, n: string)
    requires Allowed(w, e) && e.Advance? && n in w.s.items && EntryOk(w, n, w.s.items[n])
    requires Step(w, e).s.items == w.s.items && Grows(w.s.log, Step(w, e).s.log)
    requires Owns(w.crew[e.pid], n) ==> Owns(Step(w, e).crew[e.pid], n)
    ensures EntryOk(Step(w, e), n, w.s.items[n])
  {
    if w.s.items[n].status.Installing? {
      var pid: nat :| OwnedBy(w, pid, n);
      assert OwnedBy(Step(w, e), pid, n);
    }
  }

  lemma StepKeepsInv(w: World, e: Event)
    requires Inv(w) && Allowed(w, e)
    ensures Inv(Step(w, e))
  {
    StepGrowsLog(w, e);
    StepKeepsTasks(w, e);
    forall n | n in Step(w, e).s.items
      ensures EntryOk(Step(w, e), n, Step(w, e).s.items[n])
    {
      StepKeepsEntry(w, e, n);
    }
  }

  lemma {:induction false} RunKeepsInv(w: World, es: seq<Event>)
    requires Inv(w) && AllowedRun(w, es)
    ensures Inv(Run(w, es))
    decreases |es|
  {
    if es != [] {
      StepKeepsInv(w, es[0]);
      RunKeepsInv(Step(w, es[0]), es[1..]);
    }
  }

  ghost predicate AtRest(w: World) {
    forall p :: p in w.crew ==> w.crew[p].Finished?
  }

  /** Of the sequential lifecycle, three clauses survive every interleaving: once
      all operations are finished nothing is left Installing; an entry that is not
      installed has no manager; and Helm only ever uninstalls what knaic installed
      or recognised. */
  lemma LifecycleSurvives(w: World, es: seq<Event>)
    requires Start(w) && AllowedRun(w, es)
    ensures var v := Run(w, es);
            && (AtRest(v) ==> forall n :: n in v.s.items ==> !v.s.items[n].status.Installing?)
            && (forall n :: n in v.s.items && v.s.items[n].status.NotInstalled? ==> v.s.items[n].managedBy.Nobody?)
            && Earned(v.s.log)
  {
    RunKeepsInv(w, es);
    var v := Run(w, es);
    forall n | n in v.s.items
      ensures v.s.items[n].status.NotInstalled? ==> v.s.items[n].managedBy.Nobody?
      ensures v.s.items[n].status.Installing? ==> SomeOwner(v, n)
    {
      assert EntryOk(v, n, v.s.items[n]);
    }
  }

  // ----- the check the writes could make -----------------------------------

  /** A mark is only put on an entry that is there and not Installing, and an
      Installing entry is not removed. */
  predicate Careful(w: World, e: Event)
    requires Allowed(w, e)
  {
    match e
    case Advance(pid, _, _, _) =>
      var t := w.crew[pid];
      t.Ready? && !t.act.Reconciles? ==> t.name in w.s.items && !w.s.items[t.name].status.Installing?
    case Other(op) => op.Remove? && op.name in w.s.items ==> !w.s.items[op.name].status.Installing?
    case _ => true
  }

  /** A detection's or reconciliation's closing write finds its entry not
      Installing: a look at the stored entry inside the write. */
  predicate FindsSettled(w: World, e: Event)
    requires Allowed(w, e)
  {
    e.Advance? && Bystander(w.crew[e.pid]) && w.crew[e.pid].name in w.s.items
    ==> !w.s.items[w.crew[e.pid].name].status.Installing?
  }

  predicate Bystander(t: Task) {
    t.Scanned? || ((t.Answered? || t.Cleared?) && t.act.Reconciles?)
  }

  predicate CarefulRun(w: World, es: seq<Event>)
    requires AllowedRun(w, es)
    decreases |es|
  {
    es != [] ==> Careful(w, es[0]) && CarefulRun(Step(w, es[0]), es[1..])
  }

  predicate SettledRun(w: World, es: seq<Event>)
    requires AllowedRun(w, es)
    decreases |es|
  {
    es != [] ==> FindsSettled(w, es[0]) && SettledRun(Step(w, es[0]), es[1..])
  }

  /** One mark at a time, on an entry that is there. */
  ghost predicate Exclusive(w: World) {
    && (forall p: nat, q: nat, n :: OwnedBy(w, p, n) && OwnedBy(w, q, n) ==> p == q)
    && (forall p: nat, n :: OwnedBy(w, p, n) ==> n in w.s.items)
  }

  /** Then what a writer finds in the store tells whether there is a mark. */
  lemma FoundIsGuarded(w: World, e: Event)
    requires Inv(w) && Held(w) && Exclusive(w) && Allowed(w, e)
    ensures FindsSettled(w, e) <==> Guard(w, e)
  {
    if Writes(w, e).Some? {
      var n := Writes(w, e).value;
      if e.Advance? && Bystander(w.crew[e.pid]) {
        MarkedIffOwned(w, n);
        assert !OwnedBy(w, e.pid, n);
      } else if e.Advance? {
        assert OwnedBy(w, e.pid, n);
      }
    }
  }

  lemma MarkedIffOwned(w: World, n: string)
    requires Inv(w) && Held(w) && n in w.s.items
    ensures w.s.items[n].status.Installing? <==> SomeOwner(w, n)
  {
    assert EntryOk(w, n, w.s.items[n]);
  }

  lemma StepKeepsExclusive(w: World, e: Event)
    requires Held(w) && Exclusive(w) && Allowed(w, e) && Careful(w, e)
    ensures Exclusive(Step(w, e))
  {
    var v := Step(w, e);
    forall p: nat, n | OwnedBy(v, p, n)
      ensures n in v.s.items
      ensures OwnedBy(w, p, n) || (Marking(w, e, n) && Some(p) == Actor(e))
    {
      OwnersComeFrom(w, e, p, n);
      if OwnedBy(w, p, n) {
        EntriesStay(w, e, n);
      }
    }
    forall p: nat, q: nat, n | OwnedBy(v, p, n) && OwnedBy(v, q, n)
      ensures p == q
    {
    }
  }

  /** The step puts a mark on the entry. */
  predicate Marking(w: World, e: Event, n: string)
    requires Allowed(w, e)
  {
    e.Advance? && w.crew[e.pid].Ready? && !w.crew[e.pid].act.Reconciles? && w.crew[e.pid].name == n
  }

  lemma OwnersComeFrom(w: World, e: Event, p: nat, n: string)
    requires Allowed(w, e) && Careful(w, e) && OwnedBy(Step(w, e), p, n)
    ensures OwnedBy(w, p, n) || (Marking(w, e, n) && Some(p) == Actor(e))
    ensures Marking(w, e, n) ==> n in Step(w, e).s.items && n in w.s.items && !w.s.items[n].status.Installing?
  {
  }

  lemma EntriesStay(w: World, e: Event, n: string)
    requires Allowed(w, e) && Careful(w, e) && n in w.s.items && w.s.items[n].status.Installing?
    ensures n in Step(w, e).s.items
  {
  }

  lemma {:induction false} HeldIffSettled(w: World, es: seq<Event>)
    requires Inv(w) && Held(w) && Exclusive(w) && AllowedRun(w, es) && CarefulRun(w, es)
    ensures AlwaysHeld(w, es) <==> SettledRun(w, es)
    decreases |es|
  {
    if es != [] {
      var v := Step(w, es[0]);
      FoundIsGuarded(w, es[0]);
      StepHolds(w, es[0]);
      if Guard(w, es[0]) {
        StepKeepsInv(w, es[0]);
        StepKeepsExclusive(w, es[0]);
        HeldIffSettled(v, es[1..]);
      } else {
        NotAlways(v, es[1..]);
      }
    }
  }

  /** Over all runs in which marks are only put on entries that are there and not
      Installing, and Installing entries are not removed: every mark shows until
      its owner's closing write if and only if each detection's and each
      reconciliation's closing write finds the entry not Installing. */
  lemma MarksHoldIffSettled(w: World, es: seq<Event>)
    requires Start(w) && AllowedRun(w, es) && CarefulRun(w, es)
    ensures AlwaysHeld(w, es) <==> SettledRun(w, es)
  {
    HeldIffSettled(w, es);
  }

  /** Without that care no look at the entry is enough: Install refuses only what
      is Installed, so two installations run at once, and the first to close
      clears the other's mark, with no detection or reconciliation around. */
  lemma DoubleInstallIsReachable(s: State, name: string, ns: string, scan: Snapshot)
    requires name in s.items && Allows(Installs, s.items[name])
    ensures var w := World(s, map[]);
            var a, b := Advance(0, Ok(ns), true, scan), Advance(1, Ok(ns), true, scan);
            var es := [Begin(0, Installs, name), a, Begin(1, Installs, name), b, a, a, a];
            AllowedRun(w, es) && SettledRun(w, es) && !CarefulRun(w, es)
            && var v := Run(w, es);
               OwnedBy(v, 1, name) && name in v.s.items && v.s.items[name].status.Installed?
  {
    var w := World(s, map[]);
    var a, b := Advance(0, Ok(ns), true, scan), Advance(1, Ok(ns), true, scan);
    var w1 := World(s, map[0 := Ready(Installs, name)]);
    var w2 := World(MarkInstalling(s, name), map[0 := Marked(Installs, name)]);
    assert Step(w1, a) == w2 by { assert w1.crew[0 := Marked(Installs, name)] == w2.crew; }
    var w3 := w2.(crew := w2.crew[1 := Ready(Installs, name)]);
    TwoAtOnce(w3, name, ns, scan);
    Prepended(w2, Begin(1, Installs, name), [b, a, a, a]);
    Prepended(w1, a, [Begin(1, Installs, name), b, a, a, a]);
    Prepended(w, Begin(0, Installs, name), [a, Begin(1, Installs, name), b, a, a, a]);
  }

  lemma TwoAtOnce(w: World, name: string, ns: string, scan: Snapshot)
    requires w.crew == map[0 := Marked(Installs, name)][1 := Ready(Installs, name)]
    requires name in w.s.items && w.s.items[name].status.Installing?
    ensures var a, b := Advance(0, Ok(ns), true, scan), Advance(1, Ok(ns), true, scan);
            AllowedRun(w, [b, a, a, a]) && SettledRun(w, [b, a, a, a]) && !CarefulRun(w, [b, a, a, a])
            && var v := Run(w, [b, a, a, a]);
               OwnedBy(v, 1, name) && name in v.s.items && v.s.items[name].status.Installed?
  {
    var a, b := Advance(0, Ok(ns), true, scan), Advance(1, Ok(ns), true, scan);
    var w1 := Step(w, b);
    assert w1.crew[1] == Marked(Installs, name) && w1.crew[0] == Marked(Installs, name) && name in w1.s.items;
    var w2 := Step(w1, a);
    assert w2.crew[0] == Answered(Installs, name, Ok(ns)) && w2.crew[1] == w1.crew[1] && w2.s.items == w1.s.items;
    var w3 := Step(w2, a);
    assert w3.crew[0] == Cleared(Installs, name, Ok(ns)) && w3.crew[1] == w1.crew[1] && w3.s.items == w1.s.items;
    Prepended(w3, a, []);
    Prepended(w2, a, [a]);
    Prepended(w1, a, [a, a]);
    Prepended(w, b, [a, a, a]);
  }

  lemma Prepended(w: World, e: Event, es: seq<Event>)
    requires Allowed(w, e) && AllowedRun(Step(w, e), es)
    ensures AllowedRun(w, [e] + es) && Run(w, [e] + es) == Run(Step(w, e), es)
    ensures SettledRun(w, [e] + es) <==> FindsSettled(w, e) && SettledRun(Step(w, e), es)
    ensures CarefulRun(w, [e] + es) <==> Careful(w, e) && CarefulRun(Step(w, e), es)
  {
    assert ([e] + es)[1..] == es;
  }

  // ----- the clause that does not ------------------------------------------

  /** Every installed entry has a manager. */
  ghost predicate Managed(w: World) {
    forall n :: n in w.s.items && w.s.items[n].status.Installed? ==> !w.s.items[n].managedBy.Nobody?
  }

  /** A reconciliation's closing write that reports success finds its entry with a
      manager. */
  predicate ManagedGuard(w: World, e: Event)
    requires Allowed(w, e)
  {
    e.Advance? && Reconciled(w.crew[e.pid]) && w.crew[e.pid].name in w.s.items
    ==> !w.s.items[w.crew[e.pid].name].managedBy.Nobody?
  }

  predicate Reconciled(t: Task) {
    (t.Answered? || t.Cleared?) && t.act.Reconciles? && t.helm.Ok?
  }

  lemma StepManages(w: World, e: Event)
    requires Managed(w) && Allowed(w, e)
    ensures Managed(Step(w, e)) <==> ManagedGuard(w, e)
  {
    var v := Step(w, e);
    if ManagedGuard(w, e) {
      forall n | n in v.s.items && v.s.items[n].status.Installed?
        ensures !v.s.items[n].managedBy.Nobody?
      {
        EntryStaysManaged(w, e, n);
      }
    } else {
      var n := w.crew[e.pid].name;
      assert n in v.s.items && v.s.items[n].status.Installed? && v.s.items[n].managedBy.Nobody?;
    }
  }

  lemma EntryStaysManaged(w: World, e: Event, n: string)
    requires Managed(w) && Allowed(w, e) && ManagedGuard(w, e)
    requires n in Step(w, e).s.items && Step(w, e).s.items[n].status.Installed?
    ensures !Step(w, e).s.items[n].managedBy.Nobody?
  {
    if e.Advance? && w.crew[e.pid].Scanned? && w.crew[e.pid].name == n {
      var t := w.crew[e.pid];
      SettledManager(w.s.items[n], Resolve(t.read, t.snap), w.s.systemNamespace);
    } else if e.Advance? && Touches(w.crew[e.pid], n) {
      ClosedManager(w, e, n);
    } else if n in w.s.items {
      UntouchedEntry(w, e, n);
    }
  }

  lemma SettledManager(c: Component, v: Verdict, ns: string)
    ensures var d := Settled(c, v, ns, NoteOf(v)); d.status.Installed? ==> !d.managedBy.Nobody?
  {
  }

  lemma ClosedManager(w: World, e: Event, n: string)
    requires Managed(w) && Allowed(w, e) && ManagedGuard(w, e) && e.Advance?
    requires Touches(w.crew[e.pid], n) && !w.crew[e.pid].Scanned?
    requires n in Step(w, e).s.items && Step(w, e).s.items[n].status.Installed?
    ensures !Step(w, e).s.items[n].managedBy.Nobody?
  {
  }

  ghost predicate AlwaysManaged(w: World, es: seq<Event>)
    requires AllowedRun(w, es)
    decreases |es|
  {
    Managed(w) && (es != [] ==> AlwaysManaged(Step(w, es[0]), es[1..]))
  }

  predicate ManagedRun(w: World, es: seq<Event>)
    requires AllowedRun(w, es)
    decreases |es|
  {
    es != [] ==> ManagedGuard(w, es[0]) && ManagedRun(Step(w, es[0]), es[1..])
  }

  lemma {:induction false} ManagedIff(w: World, es: seq<Event>)
    requires Managed(w) && AllowedRun(w, es)
    ensures AlwaysManaged(w, es) <==> ManagedRun(w, es)
    decreases |es|
  {
    if es != [] {
      StepManages(w, es[0]);
      if ManagedGuard(w, es[0]) {
        ManagedIff(Step(w, es[0]), es[1..]);
      } else {
        assert !Managed(Step(w, es[0]));
        NotAlwaysManaged(Step(w, es[0]), es[1..]);
      }
    }
  }

  lemma NotAlwaysManaged(w: World, es: seq<Event>)
    requires AllowedRun(w, es) && !Managed(w)
    ensures !AlwaysManaged(w, es)
  {
  }

  /** Installed entries have a manager at every point of a run if and only if no
      reconciliation reports success on an entry that has lost its manager since
      it was checked. */
  lemma ManagersHoldIffGuarded(w: World, es: seq<Event>)
    requires Start(w) && AllowedRun(w, es)
    ensures AlwaysManaged(w, es) <==> ManagedRun(w, es)
  {
    ManagedIff(w, es);
  }

  /** That happens when a removal completes while Helm upgrades: the entry ends up
      installed, with nobody managing it. */
  lemma OrphanIsReachable(s: State, name: string, scan: Snapshot)
    requires name in s.items && Allows(Reconciles, s.items[name]) && Allows(Uninstalls, s.items[name])
    ensures var w := World(s, map[]);
            var up, down := Advance(0, Ok(""), true, scan), Advance(1, Ok(""), true, scan);
            var es := [Begin(0, Reconciles, name), up, Begin(1, Uninstalls, name), down, down, down, down, up];
            AllowedRun(w, es)
            && var v := Run(w, es);
               AtRest(v) && name in v.s.items && v.s.items[name].status.Installed? && v.s.items[name].managedBy.Nobody?
  {
    var w := World(s, map[]);
    var up, down := Advance(0, Ok(""), true, scan), Advance(1, Ok(""), true, scan);
    var w1 := w.(crew := map[0 := Ready(Reconciles, name)]);
    var w2 := w1.(crew := w1.crew[0 := Answered(Reconciles, name, Ok(""))]);
    var w3 := w2.(crew := w2.crew[1 := Ready(Uninstalls, name)]);
    RemovedUnder(w3, name, up, down);
    Prepended(w2, Begin(1, Uninstalls, name), [down, down, down, down, up]);
    Prepended(w1, up, [Begin(1, Uninstalls, name), down, down, down, down, up]);
    Prepended(w, Begin(0, Reconciles, name), [up, Begin(1, Uninstalls, name), down, down, down, down, up]);
  }

  lemma RemovedUnder(w: World, name: string, up: Event, down: Event)
    requires w.crew == map[0 := Answered(Reconciles, name, Ok(""))][1 := Ready(Uninstalls, name)] && name in w.s.items
    requires up.Advance? && up.pid == 0 && down.Advance? && down.pid == 1 && down.helm == Ok("")
    ensures AllowedRun(w, [down, down, down, down, up])
            && var v := Run(w, [down, down, down, down, up]);
               AtRest(v) && name in v.s.items && v.s.items[name].status.Installed? && v.s.items[name].managedBy.Nobody?
  {
    var w1 := Step(w, down);
    assert w1.crew[1] == Marked(Uninstalls, name) && name in w1.s.items;
    var w2 := Step(w1, down);
    assert w2.crew[1] == Answered(Uninstalls, name, Ok("")) && w2.s.items == w1.s.items;
    assert w2.crew.Keys == {0, 1} && w2.crew[0] == Answered(Reconciles, name, Ok(""));
    ClosedUnder(w2, name, up, down);
    Prepended(w1, down, [down, down, up]);
    Prepended(w, down, [down, down, down, up]);
  }

  lemma ClosedUnder(w2: World, name: string, up: Event, down: Event)
    requires w2.crew.Keys == {0, 1} && w2.crew[0] == Answered(Reconciles, name, Ok(""))
    requires w2.crew[1] == Answered(Uninstalls, name, Ok("")) && name in w2.s.items
    requires up.Advance? && up.pid == 0 && down.Advance? && down.pid == 1
    ensures AllowedRun(w2, [down, down, up])
            && var v := Run(w2, [down, down, up]);
               AtRest(v) && name in v.s.items && v.s.items[name].status.Installed? && v.s.items[name].managedBy.Nobody?
  {
    var w3 := Step(w2, down);
    assert w3.crew[1] == Cleared(Uninstalls, name, Ok("")) && w3.s.items == w2.s.items;
    var w4 := Step(w3, down);
    assert w4.crew[1] == Finished(true) && name in w4.s.items && w4.s.items[name].managedBy.Nobody?;
    assert w4.crew[0] == Answered(Reconciles, name, Ok(""));
    Prepended(w4, up, []);
    Prepended(w3, down, [up]);
    Prepended(w2, down, [down, up]);
  }
}
