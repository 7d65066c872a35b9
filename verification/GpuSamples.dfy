/** Which metric samples the report observes and what each one says, label by
    label. */
module GpuSamples {
  import opened Text
  import opened GpuKeys
  import opened GpuTally
  import opened GpuStatus
  import opened GpuReadings
  import opened GpuMonitoring
  import GpuListed

  /** A sample of a query counts if its key is an accelerator's and it names a node,
      or a namespace and a pod; the value is cut off towards zero. */
  lemma SampleCounts(q: Query, s: Sample)
    ensures var key := CanonicalResourceKey(Label(s, "resource"));
            ReadingOf(q, s)
            == match q
               case CapacityQuery =>
                 if GpuListed.IsAccelerator(key) && Label(s, "node") != "" then
                   Some(Reading("", "", Label(s, "node"), "", key, Trunc(s.value)))
                 else None
               case RequestQuery =>
                 if GpuListed.IsAccelerator(key) && Label(s, "namespace") != "" && Label(s, "pod") != "" then
                   Some(Reading(Label(s, "namespace"), Label(s, "pod"), Label(s, "node"), Label(s, "container"), key,
                                Trunc(s.value)))
                 else None
  {
    GpuListed.AcceleratorIff(CanonicalResourceKey(Label(s, "resource")));
  }

  /** Cutting off towards zero. */
  lemma TruncIs(x: real)
    ensures x >= 0.0 ==> Trunc(x) as real <= x < Trunc(x) as real + 1.0
    ensures x <= 0.0 ==> Trunc(x) as real - 1.0 < x <= Trunc(x) as real
  {
  }

  /** The report observes the samples its queries select, one by one: those of a
      mangled key in three parts, and if a namespace is asked for, the requests of
      that namespace. */
  lemma {:induction false} OneSample(q: Query, opts: Options, before: seq<Sample>, s: Sample)
    ensures var asked := MatchesQuery(Label(s, "resource"))
                         && (q == RequestQuery && opts.scope == "namespace" && opts.namespace_ != ""
                             ==> Label(s, "namespace") == opts.namespace_);
            Observed(q, opts, before + [s])
            == Observed(q, opts, before) + (if asked && ReadingOf(q, s).Some? then [ReadingOf(q, s).value] else [])
    ensures Observed(q, opts, []) == []
  {
    assert (before + [s])[..|before|] == before;
    var kept := Selected(q, opts, before);
    assert kept + [] == kept;
    ReadingsAppend(q, kept, s);
    assert Observed(q, opts, before) + [] == Observed(q, opts, before);
  }

  /** A pod is booked on the node of its first observation. */
  lemma {:induction false} HomedIs(us: seq<Reading>, i: nat, j: nat)
    requires j <= i < |us| && us[i].namespace_ == us[j].namespace_ && us[i].pod == us[j].pod
    requires forall k :: 0 <= k < j ==> us[k].namespace_ != us[i].namespace_ || us[k].pod != us[i].pod
    ensures |Homed(us)| == |us| && Homed(us)[i] == us[i].(node := us[j].node)
  {
    var front, r := us[..|us| - 1], us[|us| - 1];
    HomedSize(us);
    HomedSize(front);
    if i < |front| {
      HomedIs(front, i, j);
      assert Homed(us)[i] == Homed(front)[i];
    } else if j == i {
      NewPod(front, r);
    } else {
      HomedIs(front, j, j);
      OldPod(front, r, j);
    }
  }

  lemma {:induction false} HomedSize(us: seq<Reading>)
    ensures |Homed(us)| == |us|
    ensures forall i :: 0 <= i < |us| ==> Homed(us)[i] == us[i].(node := Homed(us)[i].node)
  {
    if us != [] {
      HomedSize(us[..|us| - 1]);
    }
  }

  lemma NewPod(us: seq<Reading>, r: Reading)
    requires forall k :: 0 <= k < |us| ==> us[k].namespace_ != r.namespace_ || us[k].pod != r.pod
    ensures FirstNode(Homed(us), r) == r.node
  {
    HomedSize(us);
    FirstNodeIs(Homed(us), r, r.node);
  }

  lemma {:induction false} FirstNodeAt(us: seq<Reading>, r: Reading, j: nat)
    requires j < |us| && SamePod(us[j], r) && forall k :: 0 <= k < j ==> !SamePod(us[k], r)
    ensures FirstNode(us, r) == us[j].node
  {
    if j > 0 {
      FirstNodeAt(us[1..], r, j - 1);
    }
  }

  lemma OldPod(us: seq<Reading>, r: Reading, j: nat)
    requires j < |us| && us[j].namespace_ == r.namespace_ && us[j].pod == r.pod
    requires forall k :: 0 <= k < j ==> us[k].namespace_ != r.namespace_ || us[k].pod != r.pod
    requires |Homed(us)| == |us| && Homed(us)[j] == us[j]
    ensures FirstNode(Homed(us), r) == us[j].node
  {
    HomedSize(us);
    FirstNodeAt(Homed(us), r, j);
  }
}
