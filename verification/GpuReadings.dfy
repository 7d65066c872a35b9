/** The report in terms of single observations of nodes and pods, whichever
    source they come from, and that the cluster report is one such. */
module GpuReadings {
  import opened Order
  import opened GpuKeys
  import opened GpuTally
  import opened GpuVendors
  import opened GpuStatus

  // ----- where a pod is booked ---------------------------------------------

  predicate SamePod(a: Reading, b: Reading) {
    a.namespace_ == b.namespace_ && a.pod == b.pod
  }

  /** The node of the first observation of a pod. */
  function FirstNode(us: seq<Reading>, r: Reading): string {
    if us == [] then r.node
    else if SamePod(us[0], r) then us[0].node
    else FirstNode(us[1..], r)
  }

  /** Every observation moved to the node its pod was first seen on: that is
      where the report books it. */
  function Homed(us: seq<Reading>): seq<Reading> {
    if us == [] then []
    else
      var front, r := Homed(us[..|us| - 1]), us[|us| - 1];
      front + [r.(node := FirstNode(front, r))]
  }

  ghost predicate Settled(us: seq<Reading>) {
    forall a, b :: a in us && b in us && SamePod(a, b) ==> a.node == b.node
  }

  predicate HasPod(us: seq<Reading>, r: Reading) {
    exists u | u in us :: SamePod(u, r)
  }

  lemma {:induction false} FirstNodeIs(us: seq<Reading>, r: Reading, node: string)
    requires forall a :: a in us && SamePod(a, r) ==> a.node == node
    ensures FirstNode(us, r) == if HasPod(us, r) then node else r.node
  {
    if us != [] {
      assert us[0] in us;
      if !SamePod(us[0], r) {
        FirstNodeIs(us[1..], r, node);
        assert us == [us[0]] + us[1..];
      }
    }
  }

  /** Where all observations of a pod agree on its node, nothing moves. */
  lemma {:induction false} SettledIsHomed(us: seq<Reading>)
    requires Settled(us)
    ensures Homed(us) == us
  {
    if us != [] {
      var front, r := us[..|us| - 1], us[|us| - 1];
      assert us == front + [r];
      SettledIsHomed(front);
      FirstNodeIs(front, r, r.node);
      assert r.(node := r.node) == r;
    }
  }

  // ----- the report in terms of observations -------------------------------

  function PodSet(us: seq<Reading>, node: string): set<(string, string)> {
    set u | u in us && u.node == node :: (u.namespace_, u.pod)
  }

  function PodKeys(rows: seq<PodUsage>): (ks: seq<Key>)
    ensures |ks| == |rows| && forall i :: 0 <= i < |rows| ==> ks[i] == [rows[i].namespace_, rows[i].name]
  {
    seq(|rows|, i requires 0 <= i < |rows| => [rows[i].namespace_, rows[i].name])
  }

  function NodeKeys(rows: seq<NodeSummary>): (ks: seq<Key>)
    ensures |ks| == |rows| && forall i :: 0 <= i < |rows| ==> ks[i] == [rows[i].node]
  {
    seq(|rows|, i requires 0 <= i < |rows| => [rows[i].node])
  }

  /** A pod is shown on a node some observation of it names. */
  ghost predicate ShownOn(us: seq<Reading>, row: PodUsage) {
    exists u :: u in us && u.namespace_ == row.namespace_ && u.pod == row.name && u.node == row.node
  }

  /** The report that these observations of nodes and of pods amount to: nothing
      in it depends on the order they came in. */
  ghost predicate Reports(out: Status, caps: seq<Reading>, us: seq<Reading>) {
    && Headlines(out, Of(caps, All), Of(us, All))
    && Ascends(NodeKeys(out.nodes))
    && (forall n :: [n] in NodeKeys(out.nodes) <==> Mentions(caps, OnNode(n)))
    && (forall i :: 0 <= i < |out.nodes| ==> NodeRowOk(out.nodes[i], caps, us))
    && Ascends(PodKeys(out.pods))
    && (forall ns, p :: [ns, p] in PodKeys(out.pods) <==> Mentions(us, OfPod(ns, p)))
    && (forall i :: 0 <= i < |out.pods| ==> PodRowOk(out.pods[i], us))
  }

  ghost predicate NodeRowOk(row: NodeSummary, caps: seq<Reading>, us: seq<Reading>) {
    row == NodeSummary(row.node, Of(caps, OnNode(row.node)), Of(us, OnNode(row.node)), |PodSet(us, row.node)|)
  }

  ghost predicate PodRowOk(row: PodUsage, us: seq<Reading>) {
    row.resources == Of(us, OfPod(row.namespace_, row.name)) && ShownOn(us, row)
  }

  /** A pod row without what only one of the two sources knows: its phase and
      how its total splits over containers. */
  datatype PodTotal = PodTotal(namespace_: string, name: string, node: string, resources: Tally)

  function PodTotals(rows: seq<PodUsage>): (ts: seq<PodTotal>)
    ensures |ts| == |rows|
    ensures forall i :: 0 <= i < |rows| ==>
              ts[i] == PodTotal(rows[i].namespace_, rows[i].name, rows[i].node, rows[i].resources)
  {
    seq(|rows|, i requires 0 <= i < |rows| => PodTotal(rows[i].namespace_, rows[i].name, rows[i].node, rows[i].resources))
  }

  lemma SameMembers<T>(a: seq<T>, b: seq<T>)
    requires multiset(a) == multiset(b)
    ensures forall x :: x in a <==> x in b
  {
    forall x
      ensures x in a <==> x in b
    {
      assert x in a <==> x in multiset(a);
      assert x in b <==> x in multiset(b);
    }
  }

  lemma SameMentions(a: seq<Reading>, b: seq<Reading>, p: Pick)
    requires multiset(a) == multiset(b)
    ensures Mentions(a, p) <==> Mentions(b, p)
  {
    SameMembers(a, b);
  }

  /** Reports on the same observations, in whatever orders, are the same report. */
  lemma ReportsAgree(a: Status, b: Status, capsA: seq<Reading>, capsB: seq<Reading>, usA: seq<Reading>, usB: seq<Reading>)
    requires Reports(a, capsA, usA) && Reports(b, capsB, usB)
    requires multiset(capsA) == multiset(capsB) && multiset(usA) == multiset(usB) && Settled(usA)
    ensures a.vendors == b.vendors && a.summary == b.summary && a.nodes == b.nodes
            && PodTotals(a.pods) == PodTotals(b.pods)
  {
    OfPermutes(capsA, capsB, All);
    OfPermutes(usA, usB, All);
    HeadlinesUnique(a, b, Of(capsA, All), Of(usA, All));
    NodesAgree(a.nodes, b.nodes, capsA, capsB, usA, usB);
    PodsAgree(a.pods, b.pods, usA, usB);
  }

  lemma NodesAgree(a: seq<NodeSummary>, b: seq<NodeSummary>, capsA: seq<Reading>, capsB: seq<Reading>, usA: seq<Reading>,
                   usB: seq<Reading>)
    requires Ascends(NodeKeys(a)) && (forall n :: [n] in NodeKeys(a) <==> Mentions(capsA, OnNode(n)))
    requires Ascends(NodeKeys(b)) && (forall n :: [n] in NodeKeys(b) <==> Mentions(capsB, OnNode(n)))
    requires forall i :: 0 <= i < |a| ==> NodeRowOk(a[i], capsA, usA)
    requires forall i :: 0 <= i < |b| ==> NodeRowOk(b[i], capsB, usB)
    requires multiset(capsA) == multiset(capsB) && multiset(usA) == multiset(usB)
    ensures a == b
  {
    forall k
      ensures k in NodeKeys(a) <==> k in NodeKeys(b)
    {
      if |k| == 1 {
        SameMentions(capsA, capsB, OnNode(k[0]));
        assert k == [k[0]];
      }
    }
    AscendsUnique(NodeKeys(a), NodeKeys(b));
    forall i | 0 <= i < |a|
      ensures a[i] == b[i]
    {
      assert NodeKeys(a)[i] == [a[i].node] && NodeKeys(b)[i] == [b[i].node];
      assert [a[i].node][0] == [b[i].node][0];
      var n := a[i].node;
      OfPermutes(capsA, capsB, OnNode(n));
      OfPermutes(usA, usB, OnNode(n));
      SameMembers(usA, usB);
      assert PodSet(usA, n) == PodSet(usB, n);
      assert NodeRowOk(a[i], capsA, usA) && NodeRowOk(b[i], capsB, usB);
    }
  }

  lemma PodsAgree(a: seq<PodUsage>, b: seq<PodUsage>, usA: seq<Reading>, usB: seq<Reading>)
    requires Ascends(PodKeys(a)) && (forall ns, p :: [ns, p] in PodKeys(a) <==> Mentions(usA, OfPod(ns, p)))
    requires Ascends(PodKeys(b)) && (forall ns, p :: [ns, p] in PodKeys(b) <==> Mentions(usB, OfPod(ns, p)))
    requires forall i :: 0 <= i < |a| ==> PodRowOk(a[i], usA)
    requires forall i :: 0 <= i < |b| ==> PodRowOk(b[i], usB)
    requires multiset(usA) == multiset(usB) && Settled(usA)
    ensures PodTotals(a) == PodTotals(b)
  {
    forall k
      ensures k in PodKeys(a) <==> k in PodKeys(b)
    {
      if |k| == 2 {
        SameMentions(usA, usB, OfPod(k[0], k[1]));
        assert k == [k[0], k[1]];
      }
    }
    AscendsUnique(PodKeys(a), PodKeys(b));
    forall i | 0 <= i < |a|
      ensures PodTotals(a)[i] == PodTotals(b)[i]
    {
      assert PodKeys(a)[i] == [a[i].namespace_, a[i].name] && PodKeys(b)[i] == [b[i].namespace_, b[i].name];
      assert PodKeys(a)[i][0] == PodKeys(b)[i][0] && PodKeys(a)[i][1] == PodKeys(b)[i][1];
      OfPermutes(usA, usB, OfPod(a[i].namespace_, a[i].name));
      SameMembers(usA, usB);
      assert PodRowOk(a[i], usA) && PodRowOk(b[i], usB);
    }
  }

  // ----- observations of the cluster's objects -----------------------------

  /** One observation per key of a tally, in some order. */
  ghost function Spread(r: Reading, t: Tally, ks: set<string>): seq<Reading>
    requires ks <= t.Keys
  {
    if ks == {} then []
    else
      var k :| k in ks;
      Spread(r, t, ks - {k}) + [r.(key := k, n := t[k])]
  }

  ghost function ContainerReadings(p: Pod, cs: seq<Container>): seq<Reading> {
    if cs == [] then []
    else
      var c := cs[|cs| - 1];
      ContainerReadings(p, cs[..|cs| - 1])
      + Spread(Reading(p.namespace_, p.name, p.node, c.name, "", 0), Effective(c), Effective(c).Keys)
  }

  /** One observation per accelerator key of each container of each live pod. */
  ghost function ClusterReadings(pods: seq<Pod>): seq<Reading> {
    if pods == [] then []
    else
      var p := pods[|pods| - 1];
      ClusterReadings(pods[..|pods| - 1]) + if Terminated(p) then [] else ContainerReadings(p, p.containers)
  }

  /** One observation per accelerator key of each node. */
  ghost function NodeReadings(nodes: seq<Node>): seq<Reading> {
    if nodes == [] then []
    else
      var n := nodes[|nodes| - 1];
      NodeReadings(nodes[..|nodes| - 1]) + Spread(Reading("", "", n.name, "", "", 0), Capacity(n), Capacity(n).Keys)
  }

  lemma {:induction false} SpreadIs(r: Reading, t: Tally, ks: set<string>, p: Pick)
    requires ks <= t.Keys
    ensures Of(Spread(r, t, ks), p) == if Picks(p, r) then map k | k in ks :: t[k] else map[]
    ensures forall u :: u in Spread(r, t, ks) ==> u.key in ks && u == r.(key := u.key, n := t[u.key])
    ensures |Spread(r, t, ks)| == |ks|
    decreases ks
  {
    if ks != {} {
      var k :| k in ks && Spread(r, t, ks) == Spread(r, t, ks - {k}) + [r.(key := k, n := t[k])];
      SpreadIs(r, t, ks - {k}, p);
      var us, u := Spread(r, t, ks - {k}), r.(key := k, n := t[k]);
      assert (us + [u])[..|us|] == us;
      assert Picks(p, u) == Picks(p, r);
    }
  }

  lemma SpreadAll(r: Reading, t: Tally, p: Pick)
    ensures Of(Spread(r, t, t.Keys), p) == if Picks(p, r) then t else map[]
    ensures forall u :: u in Spread(r, t, t.Keys) ==> u.key in t && u == r.(key := u.key, n := t[u.key])
  {
    SpreadIs(r, t, t.Keys, p);
  }

  lemma {:induction false} ContainerReadingsAre(p: Pod, cs: seq<Container>, pick: Pick)
    requires !pick.OfContainer?
    ensures var r := Reading(p.namespace_, p.name, p.node, "", "", 0);
            Of(ContainerReadings(p, cs), pick) == if Picks(pick, r) then Sum(Effectives(cs)) else map[]
    ensures forall u :: u in ContainerReadings(p, cs) ==>
              u.namespace_ == p.namespace_ && u.pod == p.name && u.node == p.node && IsAcceleratorKey(u.key)
  {
    if cs != [] {
      var front, c := cs[..|cs| - 1], cs[|cs| - 1];
      var r := Reading(p.namespace_, p.name, p.node, c.name, "", 0);
      ContainerReadingsAre(p, front, pick);
      SpreadAll(r, Effective(c), pick);
      OfConcat(ContainerReadings(p, front), Spread(r, Effective(c), Effective(c).Keys), pick);
      EffectivesStep(cs);
      PlusLaws(map[], map[], map[]);
    }
  }

  /** Adding up the pods' observations is adding up the pod rows. */
  lemma {:induction false} ReadingsAreRows(pods: seq<Pod>, pick: Pick)
    requires !pick.OfContainer?
    ensures Of(ClusterReadings(pods), pick) == RowTally(Rows(pods), pick)
  {
    if pods != [] {
      var front, p := pods[..|pods| - 1], pods[|pods| - 1];
      ReadingsAreRows(front, pick);
      ContainerReadingsAre(p, p.containers, pick);
      RowsAppend(Rows(front), RowFor(p), pick, "");
      assert Rows(front) + [] == Rows(front) && ClusterReadings(front) + [] == ClusterReadings(front);
      if !Terminated(p) {
        OfConcat(ClusterReadings(front), ContainerReadings(p, p.containers), pick);
        PlusLaws(Of(ClusterReadings(front), pick), map[], map[]);
      }
    }
  }

  lemma {:induction false} OffersAreCapacities(nodes: seq<Node>)
    ensures Of(NodeReadings(nodes), All) == Sum(Capacities(nodes))
  {
    if nodes != [] {
      var front, n := nodes[..|nodes| - 1], nodes[|nodes| - 1];
      var r := Reading("", "", n.name, "", "", 0);
      OffersAreCapacities(front);
      SpreadAll(r, Capacity(n), All);
      OfConcat(NodeReadings(front), Spread(r, Capacity(n), Capacity(n).Keys), All);
      CapacitiesSize(nodes);
      CapacitiesSize(front);
      assert Capacities(nodes)[..|front|] == Capacities(front);
    }
  }

  // ----- clusters as the apiserver guarantees them -------------------------

  /** Every pod has a namespace and a name of its own. */
  ghost predicate DistinctPods(pods: seq<Pod>) {
    && (forall i :: 0 <= i < |pods| ==> pods[i].namespace_ != "" && pods[i].name != "")
    && (forall i, j :: 0 <= i < j < |pods| ==> pods[i].namespace_ != pods[j].namespace_ || pods[i].name != pods[j].name)
  }

  ghost predicate DistinctNodes(nodes: seq<Node>) {
    && (forall i :: 0 <= i < |nodes| ==> nodes[i].name != "")
    && (forall i, j :: 0 <= i < j < |nodes| ==> nodes[i].name != nodes[j].name)
  }

  predicate IsOf(u: Reading, p: Pod) {
    u.namespace_ == p.namespace_ && u.pod == p.name && u.node == p.node && IsAcceleratorKey(u.key)
  }

  ghost predicate FromSome(u: Reading, pods: seq<Pod>) {
    exists i :: 0 <= i < |pods| && IsOf(u, pods[i])
  }

  lemma {:induction false} ReadingOrigin(pods: seq<Pod>, u: Reading)
    requires u in ClusterReadings(pods)
    ensures FromSome(u, pods)
  {
    var front, p := pods[..|pods| - 1], pods[|pods| - 1];
    assert pods == front + [p];
    LastReadings(front, p, u);
    if u in ClusterReadings(front) {
      ReadingOrigin(front, u);
      LongerHasIt(u, front, p);
    } else {
      ContainerReadingIs(p, u);
      assert IsOf(u, (front + [p])[|front|]);
    }
  }

  /** The observations of one more pod. */
  lemma LastReadings(front: seq<Pod>, p: Pod, u: Reading)
    requires u in ClusterReadings(front + [p])
    ensures u in ClusterReadings(front) || u in ContainerReadings(p, p.containers)
  {
    assert (front + [p])[..|front|] == front;
    assert ClusterReadings(front + [p])
           == ClusterReadings(front) + if Terminated(p) then [] else ContainerReadings(p, p.containers);
  }

  lemma ContainerReadingIs(p: Pod, u: Reading)
    requires u in ContainerReadings(p, p.containers)
    ensures IsOf(u, p)
  {
    ContainerReadingsAre(p, p.containers, All);
  }

  lemma LongerHasIt(u: Reading, front: seq<Pod>, p: Pod)
    requires FromSome(u, front)
    ensures FromSome(u, front + [p])
  {
    var i :| 0 <= i < |front| && IsOf(u, front[i]);
    assert IsOf(u, (front + [p])[i]);
  }

  lemma ReadingsHaveOrigin(pods: seq<Pod>)
    ensures forall u :: u in ClusterReadings(pods) ==> FromSome(u, pods)
  {
    forall u | u in ClusterReadings(pods)
      ensures FromSome(u, pods)
    {
      ReadingOrigin(pods, u);
    }
  }

  lemma ClusterIsSettled(pods: seq<Pod>)
    requires DistinctPods(pods)
    ensures Settled(ClusterReadings(pods))
  {
    ReadingsHaveOrigin(pods);
    var us := ClusterReadings(pods);
    forall a, b | a in us && b in us && SamePod(a, b)
      ensures a.node == b.node
    {
      assert FromSome(a, pods) && FromSome(b, pods);
      var i :| 0 <= i < |pods| && IsOf(a, pods[i]);
      var j :| 0 <= j < |pods| && IsOf(b, pods[j]);
      assert i == j;
    }
  }

  /** The number of pods observed on a node is the number of rows there. */
  lemma {:induction false} PodSetIsCount(pods: seq<Pod>, node: string)
    requires DistinctPods(pods)
    ensures |PodSet(ClusterReadings(pods), node)| == RowCount(Rows(pods), node)
  {
    if pods != [] {
      var front, p := pods[..|pods| - 1], pods[|pods| - 1];
      assert pods == front + [p];
      PodSetIsCount(front, node);
      if Terminated(p) {
        assert Rows(pods) == Rows(front) && ClusterReadings(pods) == ClusterReadings(front);
      } else {
        CountOnePod(front, p, node);
        RowsAppend(Rows(front), RowFor(p), All, node);
        assert Rows(front) + [] == Rows(front);
      }
    }
  }

  lemma CountOnePod(front: seq<Pod>, p: Pod, node: string)
    requires DistinctPods(front + [p])
    ensures |PodSet(ClusterReadings(front) + ContainerReadings(p, p.containers), node)|
            == |PodSet(ClusterReadings(front), node)| + if p.node == node && RowFor(p).resources != map[] then 1 else 0
  {
    OnePodSet(p, node);
    NotSeenBefore(front, p, node);
    PodSetConcat(ClusterReadings(front), ContainerReadings(p, p.containers), node);
  }

  lemma PodSetConcat(a: seq<Reading>, b: seq<Reading>, node: string)
    ensures PodSet(a + b, node) == PodSet(a, node) + PodSet(b, node)
  {
  }

  lemma OnePodSet(p: Pod, node: string)
    ensures PodSet(ContainerReadings(p, p.containers), node)
            == if p.node == node && RowFor(p).resources != map[] then {(p.namespace_, p.name)} else {}
  {
    var us := ContainerReadings(p, p.containers);
    ContainerReadingsAre(p, p.containers, All);
    OfNothing(us, All);
    if us != [] {
      assert us[0] in us;
    }
  }

  lemma NotSeenBefore(front: seq<Pod>, p: Pod, node: string)
    requires DistinctPods(front + [p])
    ensures (p.namespace_, p.name) !in PodSet(ClusterReadings(front), node)
  {
    ReadingsHaveOrigin(front);
    forall u | u in ClusterReadings(front)
      ensures (u.namespace_, u.pod) != (p.namespace_, p.name)
    {
      assert FromSome(u, front);
      var i :| 0 <= i < |front| && IsOf(u, front[i]);
      assert (front + [p])[i] == front[i] && (front + [p])[|front|] == p;
    }
  }

  // ----- the cluster report as a report on observations --------------------

  predicate IsRowOf(row: PodUsage, p: Pod) {
    row == RowFor(p) && !Terminated(p) && row.resources != map[]
  }

  ghost predicate RowFromSome(row: PodUsage, pods: seq<Pod>) {
    exists i :: 0 <= i < |pods| && IsRowOf(row, pods[i])
  }

  lemma {:induction false} RowOrigin(pods: seq<Pod>, r: PodUsage)
    requires r in Rows(pods)
    ensures RowFromSome(r, pods)
  {
    var front, p := pods[..|pods| - 1], pods[|pods| - 1];
    assert pods == front + [p];
    LastRow(front, p, r);
    if r in Rows(front) {
      RowOrigin(front, r);
      LongerHasRow(r, front, p);
    } else {
      assert IsRowOf(r, (front + [p])[|front|]);
    }
  }

  lemma LastRow(front: seq<Pod>, p: Pod, r: PodUsage)
    requires r in Rows(front + [p])
    ensures r in Rows(front) || IsRowOf(r, p)
  {
    assert (front + [p])[..|front|] == front;
    assert Rows(front + [p])
           == Rows(front) + if !Terminated(p) && RowFor(p).resources != map[] then [RowFor(p)] else [];
  }

  lemma LongerHasRow(r: PodUsage, front: seq<Pod>, p: Pod)
    requires RowFromSome(r, front)
    ensures RowFromSome(r, front + [p])
  {
    var i :| 0 <= i < |front| && IsRowOf(r, front[i]);
    assert IsRowOf(r, (front + [p])[i]);
  }

  lemma RowsHaveOrigin(pods: seq<Pod>)
    ensures forall r :: r in Rows(pods) ==> RowFromSome(r, pods)
  {
    forall r | r in Rows(pods)
      ensures RowFromSome(r, pods)
    {
      RowOrigin(pods, r);
    }
  }

  lemma {:induction false} RowsAreDistinct(pods: seq<Pod>)
    requires DistinctPods(pods)
    ensures Distinct(PodKeys(Rows(pods)))
  {
    if pods != [] {
      var front, p := pods[..|pods| - 1], pods[|pods| - 1];
      RowsAreDistinct(front);
      RowsHaveOrigin(front);
      var rows := Rows(front);
      assert rows + [] == rows;
      forall r | r in rows
        ensures [r.namespace_, r.name] != [p.namespace_, p.name]
      {
        var i :| 0 <= i < |front| && IsRowOf(r, front[i]);
        assert pods[i] == front[i];
        assert [r.namespace_, r.name][0] == r.namespace_ && [r.namespace_, r.name][1] == r.name;
        assert [p.namespace_, p.name][0] == p.namespace_ && [p.namespace_, p.name][1] == p.name;
      }
      RowAppendDistinct(rows, RowFor(p));
    }
  }

  lemma RowAppendDistinct(rows: seq<PodUsage>, row: PodUsage)
    requires Distinct(PodKeys(rows))
    requires forall r :: r in rows ==> [r.namespace_, r.name] != [row.namespace_, row.name]
    ensures Distinct(PodKeys(rows + [row]))
  {
    assert PodKeys(rows + [row]) == PodKeys(rows) + [[row.namespace_, row.name]];
    forall i | 0 <= i < |rows|
      ensures PodKeys(rows)[i] != [row.namespace_, row.name]
    {
      assert rows[i] in rows;
    }
  }

  lemma {:induction false} RowTallyNone(rows: seq<PodUsage>, ns: string, name: string)
    requires [ns, name] !in PodKeys(rows)
    ensures RowTally(rows, OfPod(ns, name)) == map[]
  {
    if rows != [] {
      var front, r := rows[..|rows| - 1], rows[|rows| - 1];
      assert PodKeys(front) == PodKeys(rows)[..|front|];
      assert PodKeys(rows)[|front|] == [r.namespace_, r.name];
      RowTallyNone(front, ns, name);
    }
  }

  /** Among rows of distinct pods, a pod's tally is its one row's. */
  lemma {:induction false} RowTallyOne(rows: seq<PodUsage>, i: nat)
    requires Distinct(PodKeys(rows)) && i < |rows|
    ensures RowTally(rows, OfPod(rows[i].namespace_, rows[i].name)) == rows[i].resources
  {
    var front, r := rows[..|rows| - 1], rows[|rows| - 1];
    var x := rows[i];
    assert PodKeys(front) == PodKeys(rows)[..|front|];
    assert PodKeys(rows)[|front|] == [r.namespace_, r.name] && PodKeys(rows)[i] == [x.namespace_, x.name];
    if i == |front| {
      RowTallyNone(front, x.namespace_, x.name);
      PlusLaws(x.resources, map[], map[]);
    } else {
      RowTallyOne(front, i);
    }
  }

  /** A row stands for its pod's observations, on the pod's node. */
  lemma RowIsOk(pods: seq<Pod>, i: nat)
    requires DistinctPods(pods) && i < |Rows(pods)|
    ensures var r := Rows(pods)[i];
            PodRowOk(r, ClusterReadings(pods)) && Mentions(ClusterReadings(pods), OfPod(r.namespace_, r.name))
  {
    var rows, us := Rows(pods), ClusterReadings(pods);
    var r := rows[i];
    var pick := OfPod(r.namespace_, r.name);
    RowsAreDistinct(pods);
    RowTallyOne(rows, i);
    ReadingsAreRows(pods, pick);
    RowsHaveOrigin(pods);
    assert r in rows && RowFromSome(r, pods);
    OfNothing(us, pick);
    assert Mentions(us, pick);
    var u :| u in us && Picks(pick, u);
    ReadingsHaveOrigin(pods);
    assert FromSome(u, pods);
    var a :| 0 <= a < |pods| && IsRowOf(r, pods[a]);
    var b :| 0 <= b < |pods| && IsOf(u, pods[b]);
    assert a == b;
  }

  lemma PodsReport(pods: seq<Pod>)
    requires DistinctPods(pods)
    ensures var out, us := Items(Sort(ByName(Rows(pods)))), ClusterReadings(pods);
            && Ascends(PodKeys(out))
            && (forall ns, p :: [ns, p] in PodKeys(out) <==> Mentions(us, OfPod(ns, p)))
            && (forall i :: 0 <= i < |out| ==> PodRowOk(out[i], us))
  {
    var rows, us := Rows(pods), ClusterReadings(pods);
    var xs := ByName(rows);
    var out := Items(Sort(xs));
    RowsAreDistinct(pods);
    assert Keys(xs) == PodKeys(rows);
    SortAscends(xs);
    SortKeepsKeys(xs);
    forall i | 0 <= i < |out|
      ensures Keys(Sort(xs))[i] == [out[i].namespace_, out[i].name] && PodRowOk(out[i], us)
    {
      SortMember(xs, Sort(xs)[i]);
      var j :| 0 <= j < |xs| && xs[j] == Sort(xs)[i];
      RowIsOk(pods, j);
    }
    assert PodKeys(out) == Keys(Sort(xs));
    forall ns, p
      ensures [ns, p] in PodKeys(rows) <==> Mentions(us, OfPod(ns, p))
    {
      KeysMentioned(pods, ns, p);
    }
  }

  lemma KeysMentioned(pods: seq<Pod>, ns: string, p: string)
    requires DistinctPods(pods)
    ensures [ns, p] in PodKeys(Rows(pods)) <==> Mentions(ClusterReadings(pods), OfPod(ns, p))
  {
    var rows, us := Rows(pods), ClusterReadings(pods);
    if [ns, p] in PodKeys(rows) {
      var i :| 0 <= i < |rows| && PodKeys(rows)[i] == [ns, p];
      assert [ns, p][0] == rows[i].namespace_ && [ns, p][1] == rows[i].name;
      RowIsOk(pods, i);
    } else {
      RowTallyNone(rows, ns, p);
      ReadingsAreRows(pods, OfPod(ns, p));
      OfNothing(us, OfPod(ns, p));
    }
  }

  lemma {:induction false} OffersElsewhere(nodes: seq<Node>, name: string)
    requires forall i :: 0 <= i < |nodes| ==> nodes[i].name != name
    ensures Of(NodeReadings(nodes), OnNode(name)) == map[]
  {
    if nodes != [] {
      var front, n := nodes[..|nodes| - 1], nodes[|nodes| - 1];
      OffersElsewhere(front, name);
      AddNode(front, n, OnNode(name));
      PlusLaws(map[], map[], map[]);
    }
  }

  lemma AddNode(front: seq<Node>, n: Node, pick: Pick)
    ensures Of(NodeReadings(front + [n]), pick)
            == Plus(Of(NodeReadings(front), pick), if Picks(pick, Reading("", "", n.name, "", "", 0)) then Capacity(n) else map[])
  {
    var r := Reading("", "", n.name, "", "", 0);
    assert (front + [n])[..|front|] == front;
    SpreadAll(r, Capacity(n), pick);
    OfConcat(NodeReadings(front), Spread(r, Capacity(n), Capacity(n).Keys), pick);
  }

  /** Among distinct nodes, what is offered on a node is its own capacity. */
  lemma {:induction false} OffersOnOne(nodes: seq<Node>, i: nat)
    requires DistinctNodes(nodes) && i < |nodes|
    ensures Of(NodeReadings(nodes), OnNode(nodes[i].name)) == Capacity(nodes[i])
  {
    var front, n := nodes[..|nodes| - 1], nodes[|nodes| - 1];
    assert nodes == front + [n];
    AddNode(front, n, OnNode(nodes[i].name));
    if i == |front| {
      OffersElsewhere(front, n.name);
      PlusLaws(Capacity(n), map[], map[]);
    } else {
      OffersOnOne(front, i);
      PlusLaws(Capacity(front[i]), map[], map[]);
    }
  }

  predicate IsSummaryOf(x: NodeSummary, n: Node, rows: seq<PodUsage>) {
    x == SummaryOf(n, rows) && Capacity(n) != map[]
  }

  ghost predicate SummaryFromSome(x: NodeSummary, nodes: seq<Node>, rows: seq<PodUsage>) {
    exists i :: 0 <= i < |nodes| && IsSummaryOf(x, nodes[i], rows)
  }

  lemma {:induction false} NodeRowOrigin(nodes: seq<Node>, rows: seq<PodUsage>, x: NodeSummary)
    requires x in NodeRows(nodes, rows)
    ensures SummaryFromSome(x, nodes, rows)
  {
    var front, n := nodes[..|nodes| - 1], nodes[|nodes| - 1];
    if x in NodeRows(front, rows) {
      NodeRowOrigin(front, rows, x);
      var i :| 0 <= i < |front| && IsSummaryOf(x, front[i], rows);
      assert IsSummaryOf(x, nodes[i], rows);
    } else {
      assert IsSummaryOf(x, nodes[|front|], rows);
    }
  }

  lemma {:induction false} NodeRowListed(nodes: seq<Node>, rows: seq<PodUsage>, i: nat)
    requires i < |nodes| && Capacity(nodes[i]) != map[]
    ensures SummaryOf(nodes[i], rows) in NodeRows(nodes, rows)
  {
    var front, n := nodes[..|nodes| - 1], nodes[|nodes| - 1];
    if i < |front| {
      NodeRowListed(front, rows, i);
      assert SummaryOf(front[i], rows) in NodeRows(front, rows);
    } else {
      assert NodeRows(nodes, rows) == NodeRows(front, rows) + [SummaryOf(n, rows)];
    }
  }

  lemma {:induction false} NodeRowsAreDistinct(nodes: seq<Node>, rows: seq<PodUsage>)
    requires DistinctNodes(nodes)
    ensures Distinct(NodeKeys(NodeRows(nodes, rows)))
  {
    if nodes != [] {
      var front, n := nodes[..|nodes| - 1], nodes[|nodes| - 1];
      NodeRowsAreDistinct(front, rows);
      var xs := NodeRows(front, rows);
      assert xs + [] == xs;
      forall i | 0 <= i < |xs|
        ensures NodeKeys(xs)[i] != [n.name]
      {
        NodeRowOrigin(front, rows, xs[i]);
        var j :| 0 <= j < |front| && IsSummaryOf(xs[i], front[j], rows);
        assert nodes[j] == front[j];
        assert [xs[i].node][0] != [n.name][0];
      }
      assert NodeKeys(xs + [SummaryOf(n, rows)]) == NodeKeys(xs) + [[n.name]];
    }
  }

  lemma NodeRowIsOk(nodes: seq<Node>, pods: seq<Pod>, i: nat)
    requires DistinctNodes(nodes) && DistinctPods(pods) && i < |nodes|
    ensures NodeRowOk(SummaryOf(nodes[i], Rows(pods)), NodeReadings(nodes), ClusterReadings(pods))
    ensures Mentions(NodeReadings(nodes), OnNode(nodes[i].name)) <==> Capacity(nodes[i]) != map[]
  {
    var n := nodes[i].name;
    OffersOnOne(nodes, i);
    OfNothing(NodeReadings(nodes), OnNode(n));
    ReadingsAreRows(pods, OnNode(n));
    PodSetIsCount(pods, n);
  }

  lemma NodesReport(nodes: seq<Node>, pods: seq<Pod>)
    requires DistinctNodes(nodes) && DistinctPods(pods)
    ensures var out := Items(Sort(ByNode(NodeRows(nodes, Rows(pods)))));
            var caps, us := NodeReadings(nodes), ClusterReadings(pods);
            && Ascends(NodeKeys(out))
            && (forall n :: [n] in NodeKeys(out) <==> Mentions(caps, OnNode(n)))
            && (forall i :: 0 <= i < |out| ==> NodeRowOk(out[i], caps, us))
  {
    var caps, us := NodeReadings(nodes), ClusterReadings(pods);
    var rows := NodeRows(nodes, Rows(pods));
    var xs := ByNode(rows);
    var out := Items(Sort(xs));
    NodeRowsAreDistinct(nodes, Rows(pods));
    assert Keys(xs) == NodeKeys(rows);
    SortAscends(xs);
    SortKeepsKeys(xs);
    forall i | 0 <= i < |out|
      ensures Keys(Sort(xs))[i] == [out[i].node] && NodeRowOk(out[i], caps, us)
    {
      SortMember(xs, Sort(xs)[i]);
      var j :| 0 <= j < |xs| && xs[j] == Sort(xs)[i];
      NodeRowOrigin(nodes, Rows(pods), rows[j]);
      var k :| 0 <= k < |nodes| && IsSummaryOf(rows[j], nodes[k], Rows(pods));
      NodeRowIsOk(nodes, pods, k);
    }
    assert NodeKeys(out) == Keys(Sort(xs));
    forall n
      ensures [n] in NodeKeys(rows) <==> Mentions(caps, OnNode(n))
    {
      NodeMentioned(nodes, pods, n);
    }
  }

  lemma NodeMentioned(nodes: seq<Node>, pods: seq<Pod>, n: string)
    requires DistinctNodes(nodes) && DistinctPods(pods)
    ensures [n] in NodeKeys(NodeRows(nodes, Rows(pods))) <==> Mentions(NodeReadings(nodes), OnNode(n))
  {
    var rows := NodeRows(nodes, Rows(pods));
    if [n] in NodeKeys(rows) {
      var j :| 0 <= j < |rows| && NodeKeys(rows)[j] == [n];
      assert [n][0] == [rows[j].node][0];
      NodeRowOrigin(nodes, Rows(pods), rows[j]);
      var k :| 0 <= k < |nodes| && IsSummaryOf(rows[j], nodes[k], Rows(pods));
      NodeRowIsOk(nodes, pods, k);
    }
    if Mentions(NodeReadings(nodes), OnNode(n)) {
      OfNothing(NodeReadings(nodes), OnNode(n));
      if forall i :: 0 <= i < |nodes| ==> nodes[i].name != n {
        OffersElsewhere(nodes, n);
        assert false;
      }
      var i :| 0 <= i < |nodes| && nodes[i].name == n;
      NodeRowIsOk(nodes, pods, i);
      var x := SummaryOf(nodes[i], Rows(pods));
      NodeRowListed(nodes, Rows(pods), i);
      var j :| 0 <= j < |rows| && rows[j] == x;
      assert NodeKeys(rows)[j] == [n];
    }
  }

  /** The report computed from the cluster's objects is the one its observations
      amount to. */
  lemma ClusterReports(out: Status, nodes: seq<Node>, pods: seq<Pod>)
    requires ReportsOn(out, nodes, pods) && DistinctNodes(nodes) && DistinctPods(pods)
    ensures Reports(out, NodeReadings(nodes), ClusterReadings(pods))
  {
    OffersAreCapacities(nodes);
    ReadingsAreRows(pods, All);
    NodesReport(nodes, pods);
    PodsReport(pods);
  }
}
