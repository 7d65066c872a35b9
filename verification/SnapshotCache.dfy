/** The detector's snapshot cache: one mutex, held across the scan, a
    time-to-live counted from the end of the scan, and an invalidation. Times
    are nanoseconds on the process's monotonic clock. */
module SnapshotCache {
  import opened Text

  const TTL: int := 5_000_000_000

  /** A stored scan: when it began, as a position in the run and as a time, and
      when its time-to-live started. */
  datatype Scan = Scan(begun: nat, begunAt: int, ended: int)

  datatype Holder = Free | Held(acquired: nat) | Scanning(acquired: nat, begun: nat, begunAt: int)

  /** What one snapshot call gave back, and when it took the lock and returned. */
  datatype Answer = Answer(acquired: nat, scan: Scan, returnedAt: int)

  datatype Event = Started(at: int) | Invalidated(at: int)

  datatype State = State(step: nat, now: int, snap: Option<Scan>, expires: int, holder: Holder,
                         answers: seq<Answer>, invalidations: seq<nat>, events: seq<Event>)

  datatype Step = Tick(d: nat) | Acquire | Check | Finish | Invalidate

  function Init(now: int): State {
    State(0, now, None, 0, Free, [], [], [])
  }

  /** One atomic step. The lock is taken by Acquire and by Invalidate only when
      it is free; Check either answers from the cache or starts a scan. */
  function Next(s: State, step: Step): State {
    var t := s.(step := s.step + 1);
    match step
    case Tick(d) => t.(now := s.now + d)
    case Acquire => if s.holder.Free? then t.(holder := Held(s.step)) else t
    case Check =>
      if !s.holder.Held? then t
      else if s.snap.Some? && s.now < s.expires then
        t.(holder := Free, answers := s.answers + [Answer(s.holder.acquired, s.snap.value, s.now)])
      else
        t.(holder := Scanning(s.holder.acquired, s.step, s.now), events := s.events + [Started(s.now)])
    case Finish =>
      if !s.holder.Scanning? then t
      else
        var scan := Scan(s.holder.begun, s.holder.begunAt, s.now);
        t.(holder := Free, snap := Some(scan), expires := s.now + TTL,
           answers := s.answers + [Answer(s.holder.acquired, scan, s.now)])
    case Invalidate =>
      if !s.holder.Free? then t
      else t.(snap := None, invalidations := s.invalidations + [s.step], events := s.events + [Invalidated(s.now)])
  }

  function Exec(s: State, steps: seq<Step>): State
    decreases |steps|
  {
    if steps == [] then s else Exec(Next(s, steps[0]), steps[1..])
  }

  // ----- freshness ---------------------------------------------------------

  ghost predicate AllBefore(invalidations: seq<nat>, p: nat) {
    forall i :: 0 <= i < |invalidations| ==> invalidations[i] < p
  }

  /** Of the invalidations, those before the lock was taken precede the scan. */
  ghost predicate FreshAnswer(a: Answer, invalidations: seq<nat>) {
    && a.scan.ended <= a.returnedAt < a.scan.ended + 5_000_000_000
    && a.scan.begunAt <= a.scan.ended
    && forall i :: 0 <= i < |invalidations| && invalidations[i] < a.acquired ==> invalidations[i] < a.scan.begun
  }

  ghost predicate Inv(s: State) {
    && AllBefore(s.invalidations, s.step)
    && (s.snap.Some? ==>
          && AllBefore(s.invalidations, s.snap.value.begun)
          && s.snap.value.begunAt <= s.snap.value.ended <= s.now && s.expires == s.snap.value.ended + TTL)
    && (s.holder.Held? ==> AllBefore(s.invalidations, s.holder.acquired) && s.holder.acquired < s.step)
    && (s.holder.Scanning? ==>
          && AllBefore(s.invalidations, s.holder.acquired) && AllBefore(s.invalidations, s.holder.begun)
          && s.holder.acquired < s.step && s.holder.begunAt <= s.now)
    && (forall i :: 0 <= i < |s.answers| ==> s.answers[i].acquired < s.step && FreshAnswer(s.answers[i], s.invalidations))
  }

  lemma NextKeepsInv(s: State, step: Step)
    requires Inv(s)
    ensures Inv(Next(s, step))
  {
    var t := Next(s, step);
    forall i | 0 <= i < |t.answers|
      ensures t.answers[i].acquired < t.step && FreshAnswer(t.answers[i], t.invalidations)
    {
      if i < |s.answers| {
        assert FreshAnswer(s.answers[i], s.invalidations);
      }
    }
  }

  lemma {:induction false} ExecKeepsInv(s: State, steps: seq<Step>)
    requires Inv(s)
    ensures Inv(Exec(s, steps))
    decreases |steps|
  {
    if steps != [] {
      NextKeepsInv(s, steps[0]);
      ExecKeepsInv(Next(s, steps[0]), steps[1..]);
    }
  }

  /** In every interleaving each answer comes from a scan begun after every
      invalidation that precedes the caller's taking of the lock, and is less
      than the time-to-live older than the end of that scan. */
  lemma AnswersAreFresh(start: int, steps: seq<Step>)
    ensures var s := Exec(Init(start), steps);
            forall i :: 0 <= i < |s.answers| ==> FreshAnswer(s.answers[i], s.invalidations)
  {
    ExecKeepsInv(Init(start), steps);
  }

  // ----- how many scans ----------------------------------------------------

  /** The last scan start in a log, and whether an invalidation followed it. */
  function LastStart(events: seq<Event>): Option<(int, bool)> {
    if events == [] then None
    else
      match events[|events| - 1]
      case Started(t) => Some((t, false))
      case Invalidated(_) =>
        match LastStart(events[..|events| - 1])
        case None => None
        case Some(p) => Some((p.0, true))
  }

  /** Times do not decrease, and a scan that no invalidation called for starts
      at least a time-to-live after the previous one. */
  ghost predicate Spaced(events: seq<Event>) {
    events == [] ||
    (var front, last := events[..|events| - 1], events[|events| - 1];
     && Spaced(front)
     && (front != [] ==> front[|front| - 1].at <= last.at)
     && (last.Started? && LastStart(front).Some? && !LastStart(front).value.1 ==> LastStart(front).value.0 + TTL <= last.at))
  }

  function InWindow(e: Event, a: int, b: int): nat { if a <= e.at <= b then 1 else 0 }

  function Starts(events: seq<Event>, a: int, b: int): nat {
    if events == [] then 0
    else (if events[|events| - 1].Started? then InWindow(events[|events| - 1], a, b) else 0)
         + Starts(events[..|events| - 1], a, b)
  }

  function Invalidations(events: seq<Event>, a: int, b: int): nat {
    if events == [] then 0
    else (if events[|events| - 1].Invalidated? then InWindow(events[|events| - 1], a, b) else 0)
         + Invalidations(events[..|events| - 1], a, b)
  }

  /** The counting argument: every scan in the window but the first is paid for
      by a time-to-live or by an invalidation. */
  lemma {:induction false} ScansArePaidFor(events: seq<Event>, a: int, b: int)
    requires Spaced(events) && a <= b
    ensures var n, k := Starts(events, a, b), Invalidations(events, a, b);
            n >= 1 ==> (n - 1 - k) * TTL <= b - a
    ensures var n, k := Starts(events, a, b), Invalidations(events, a, b);
            n >= 1 && events[|events| - 1].at <= b ==>
              LastStart(events).Some? && a <= LastStart(events).value.0 <= events[|events| - 1].at
              && (n - 1 - k) * TTL <= LastStart(events).value.0 - a - (if LastStart(events).value.1 then TTL else 0)
  {
    if events != [] {
      var front, last := events[..|events| - 1], events[|events| - 1];
      ScansArePaidFor(front, a, b);
      var n: int := Starts(front, a, b);
      var k: int := Invalidations(front, a, b);
      if last.at < a {
        EarlyWindow(front, a, b, last.at);
      } else if last.at <= b {
        OneMore(n - 1 - k);
        OneMore(n - 2 - k);
        assert n == 0 ==> (n - k) * TTL <= 0;
        assert n >= 1 ==> (n - 1 - k) * TTL
                          <= LastStart(front).value.0 - a - (if LastStart(front).value.1 then TTL else 0);
      }
    }
  }

  lemma OneMore(x: int)
    ensures (x + 1) * TTL == x * TTL + TTL
  {
  }

  lemma {:induction false} EarlyWindow(events: seq<Event>, a: int, b: int, t: int)
    requires Spaced(events) && t < a
    requires events != [] ==> events[|events| - 1].at <= t
    ensures Starts(events, a, b) == 0
  {
    if events != [] {
      EarlyWindow(events[..|events| - 1], a, b, t);
    }
  }

  ghost predicate Clocked(s: State) {
    && Spaced(s.events)
    && (s.events != [] ==> s.events[|s.events| - 1].at <= s.now)
    && (s.snap.Some? ==> LastStart(s.events).Some?)
    && (LastStart(s.events).Some? && !LastStart(s.events).value.1 ==>
          if s.holder.Scanning? then s.holder.begunAt == LastStart(s.events).value.0 && s.holder.begunAt <= s.now
          else s.snap.Some? && LastStart(s.events).value.0 + TTL <= s.expires)
    && (LastStart(s.events).None? || LastStart(s.events).value.1 ==> !s.holder.Scanning?)
  }

  lemma NextKeepsClocked(s: State, step: Step)
    requires Clocked(s)
    ensures Clocked(Next(s, step))
  {
    var t := Next(s, step);
    if |t.events| > |s.events| {
      assert t.events[..|t.events| - 1] == s.events;
    }
  }

  lemma {:induction false} ExecKeepsClocked(s: State, steps: seq<Step>)
    requires Clocked(s)
    ensures Clocked(Exec(s, steps))
    decreases |steps|
  {
    if steps != [] {
      NextKeepsClocked(s, steps[0]);
      ExecKeepsClocked(Next(s, steps[0]), steps[1..]);
    }
  }

  /** In every interleaving, over a window of length T that contains K
      invalidations, at most T / 5 s + 1 + K scans start. */
  lemma ScansAreBounded(start: int, steps: seq<Step>, a: int, length: nat)
    ensures var e := Exec(Init(start), steps).events;
            Starts(e, a, a + length) <= length / (5 * 1_000_000_000) + 1 + Invalidations(e, a, a + length)
  {
    var e := Exec(Init(start), steps).events;
    ExecKeepsClocked(Init(start), steps);
    ScansArePaidFor(e, a, a + length);
  }

  // ----- the cache object --------------------------------------------------

  datatype Cache<T> = Cache(snap: Option<T>, expires: int)

  /** One snapshot call: `checked` is the clock at the test, `scanned` what a
      scan would find, `ended` the clock after it. */
  function Snapshot<T>(c: Cache<T>, checked: int, scanned: T, ended: int): (Cache<T>, T) {
    if c.snap.Some? && checked < c.expires then (c, c.snap.value)
    else (Cache(Some(scanned), ended + TTL), scanned)
  }

  class Detector<T> {
    var snap: Option<T>
    var snapExpires: int

    ghost function State(): Cache<T>
      reads this
    {
      Cache(snap, snapExpires)
    }

    constructor ()
      ensures State() == Cache(None, 0)
    {
      snap, snapExpires := None, 0;
    }

    method TakeSnapshot(checked: int, scanned: T, ended: int) returns (r: T)
      modifies this
      ensures (State(), r) == Snapshot(old(State()), checked, scanned, ended)
    {
      if snap.Some? && checked < snapExpires {
        return snap.value;
      }
      snap := Some(scanned);
      snapExpires := ended + TTL;
      r := scanned;
    }

    method InvalidateSnapshot()
      modifies this`snap
      ensures State() == Cache(None, old(snapExpires))
    {
      snap := None;
    }
  }

  /** What the cache stands for: the stored scan and its expiry. */
  function CacheOf(s: State): Cache<Scan> { Cache(s.snap, s.expires) }

  /** An uninterrupted call in the protocol does what the method does. */
  lemma StepsRefineMethod(s: State, d: nat)
    requires s.holder.Free?
    ensures var hit := s.snap.Some? && s.now < s.expires;
            var steps := if hit then [Acquire, Check] else [Acquire, Check, Tick(d), Finish];
            var scanned := Scan(s.step + 1, s.now, s.now + d);
            var m := Snapshot(CacheOf(s), s.now, scanned, s.now + d);
            var t := Exec(s, steps);
            CacheOf(t) == m.0 && t.holder.Free? && |t.answers| == |s.answers| + 1
            && t.answers[|s.answers|].scan == m.1
  {
    var s1 := Next(s, Acquire);
    var s2 := Next(s1, Check);
    if s.snap.Some? && s.now < s.expires {
      assert [Acquire, Check][1..] == [Check] && [Check][1..] == [];
      assert Exec(s, [Acquire, Check]) == s2;
    } else {
      var steps := [Acquire, Check, Tick(d), Finish];
      assert steps[1..] == [Check, Tick(d), Finish] && steps[1..][1..] == [Tick(d), Finish];
      assert steps[1..][1..][1..] == [Finish] && [Finish][1..] == [];
      var s3 := Next(s2, Tick(d));
      assert Exec(s, steps) == Exec(s2, [Tick(d), Finish]) == Exec(s3, [Finish]);
      assert Exec(s3, [Finish]) == Next(s3, Finish);
    }
  }
}
