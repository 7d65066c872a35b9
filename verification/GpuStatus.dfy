/** The status report computed from the cluster's own objects. */
module GpuStatus {
  import opened Text
  import opened Order
  import opened GpuKeys
  import opened GpuTally
  import opened GpuVendors

  // ----- what the cluster lists --------------------------------------------

  datatype Container = Container(name: string, requests: map<string, int>, limits: map<string, int>)

  datatype Pod = Pod(namespace_: string, name: string, node: string, phase: string, containers: seq<Container>)

  datatype Node = Node(name: string, allocatable: map<string, int>)

  datatype Options = Options(scope: string, namespace_: string, isAdmin: bool)

  // ----- what the report shows ---------------------------------------------

  datatype ContainerUsage = ContainerUsage(name: string, resources: Tally)

  datatype PodUsage = PodUsage(namespace_: string, name: string, node: string, phase: string, resources: Tally,
                               containers: seq<ContainerUsage>)

  datatype NodeSummary = NodeSummary(node: string, capacity: Tally, inUse: Tally, pods: nat)

  datatype Status = Status(scope: string, target: string, summary: Counts, vendors: seq<VendorSummary>,
                           nodes: seq<NodeSummary>, pods: seq<PodUsage>)

  function EmptyStatus(opts: Options): Status {
    Status(opts.scope, opts.namespace_, ZERO, [], [], [])
  }

  // ----- one pod -----------------------------------------------------------

  /** A container's effective amounts: the request where there is one, else the limit. */
  function Effective(c: Container): Tally {
    map k | k in c.requests.Keys + c.limits.Keys && IsAcceleratorKey(k) ::
      if k in c.requests then c.requests[k] else c.limits[k]
  }

  function Effectives(cs: seq<Container>): seq<Tally> {
    if cs == [] then [] else Effectives(cs[..|cs| - 1]) + [Effective(cs[|cs| - 1])]
  }

  function UsageRows(cs: seq<Container>): seq<ContainerUsage> {
    if cs == [] then []
    else
      var c := cs[|cs| - 1];
      UsageRows(cs[..|cs| - 1]) + if Effective(c) != map[] then [ContainerUsage(c.name, Effective(c))] else []
  }

  function RowFor(p: Pod): PodUsage {
    PodUsage(p.namespace_, p.name, p.node, p.phase, Sum(Effectives(p.containers)), UsageRows(p.containers))
  }

  lemma BumpNew(t: Tally, d: Tally, k: string, n: int)
    requires k !in d
    ensures Bump(Plus(t, d), k, n) == Plus(t, d[k := n])
  {
    var l, r := Bump(Plus(t, d), k, n), Plus(t, d[k := n]);
    assert l.Keys == r.Keys;
    forall x | x in l
      ensures l[x] == r[x]
    {
      PlusAmount(t, d, x);
      PlusAmount(t, d[k := n], x);
    }
  }

  /** What a container has so far, on top of it the new ones of these amounts. */
  function Joined(have: Tally, amounts: map<string, int>, keys: set<string>): Tally
    requires keys <= amounts.Keys
  {
    map k | k in have.Keys + keys && (k in have || IsAcceleratorKey(k)) :: if k in have then have[k] else amounts[k]
  }

  lemma OneMore(have: Tally, amounts: map<string, int>, keys: set<string>, k: string)
    requires keys <= amounts.Keys && k in amounts
    ensures Joined(have, amounts, keys + {k})
            == var so := Joined(have, amounts, keys);
               if IsAcceleratorKey(k) && k !in so then so[k := amounts[k]] else so
  {
  }

  /** The inner loops of podRowFor: requests first, then limits not yet seen,
      both into the container's map and into the pod's. */
  method AddContainer(c: Container, t: Tally) returns (cr: Tally, r: Tally)
    ensures cr == Effective(c) && r == Plus(t, cr)
  {
    cr, r := AddAmounts(c.requests, t, map[]);
    cr, r := AddAmounts(c.limits, t, cr);
    assert cr.Keys == Effective(c).Keys;
  }

  /** One of the two loops: amounts whose key is new to the container, on top of
      what it has so far. */
  method AddAmounts(amounts: map<string, int>, t: Tally, have: Tally) returns (cr: Tally, r: Tally)
    ensures cr == Joined(have, amounts, amounts.Keys) && r == Plus(t, cr)
  {
    cr, r := have, Plus(t, have);
    ghost var done: set<string> := {};
    var left := amounts.Keys;
    while left != {}
      invariant left <= amounts.Keys && done == amounts.Keys - left
      invariant cr == Joined(have, amounts, done) && r == Plus(t, cr)
    {
      var k :| k in left;
      left := left - {k};
      OneMore(have, amounts, done, k);
      done := done + {k};
      if !IsAcceleratorKey(k) {
        continue;
      }
      if k in cr {
        continue;
      }
      BumpNew(t, cr, k, amounts[k]);
      cr := cr[k := amounts[k]];
      r := Bump(r, k, amounts[k]);
    }
  }

  method PodRowFor(p: Pod) returns (row: PodUsage, has: bool)
    ensures row == RowFor(p) && has == (row.resources != map[])
  {
    var resources: Tally := map[];
    var rows: seq<ContainerUsage> := [];
    has := false;
    var cs := p.containers;
    for i := 0 to |cs|
      invariant resources == Sum(Effectives(cs[..i])) && rows == UsageRows(cs[..i])
      invariant has == (resources != map[])
    {
      assert cs[..i + 1][..i] == cs[..i];
      ghost var before := resources;
      var cr: Tally;
      cr, resources := AddContainer(cs[i], resources);
      PlusEmpty(before, cr);
      EffectivesStep(cs[..i + 1]);
      if cr != map[] {
        has := true;
        rows := rows + [ContainerUsage(cs[i].name, cr)];
      }
    }
    assert cs[..|cs|] == cs;
    row := PodUsage(p.namespace_, p.name, p.node, p.phase, resources, rows);
  }

  lemma PlusEmpty(a: Tally, b: Tally)
    ensures Plus(a, b) == map[] <==> a == map[] && b == map[]
  {
    assert Plus(a, b).Keys == a.Keys + b.Keys;
    assert a == map[] <==> a.Keys == {};
    assert b == map[] <==> b.Keys == {};
    assert Plus(a, b) == map[] <==> Plus(a, b).Keys == {};
  }

  lemma EffectivesStep(cs: seq<Container>)
    requires cs != []
    ensures Sum(Effectives(cs)) == Plus(Sum(Effectives(cs[..|cs| - 1])), Effective(cs[|cs| - 1]))
  {
    var e := Effectives(cs);
    assert e[..|e| - 1] == Effectives(cs[..|cs| - 1]);
  }

  // ----- all pods ----------------------------------------------------------

  predicate Terminated(p: Pod) {
    p.phase == "Succeeded" || p.phase == "Failed"
  }

  /** The rows of the pods that hold accelerators, in listing order. */
  function Rows(pods: seq<Pod>): seq<PodUsage> {
    if pods == [] then []
    else
      var p := pods[|pods| - 1];
      Rows(pods[..|pods| - 1]) + if !Terminated(p) && RowFor(p).resources != map[] then [RowFor(p)] else []
  }

  predicate PicksRow(p: Pick, r: PodUsage) {
    match p
    case All => true
    case OfPod(ns, pod) => r.namespace_ == ns && r.name == pod
    case OnNode(node) => r.node == node
    case OfContainer(_, _, _) => false
  }

  function RowTally(rows: seq<PodUsage>, p: Pick): Tally {
    if rows == [] then map[]
    else
      var r, rest := rows[|rows| - 1], RowTally(rows[..|rows| - 1], p);
      if PicksRow(p, r) then Plus(rest, r.resources) else rest
  }

  function RowCount(rows: seq<PodUsage>, node: string): nat {
    if rows == [] then 0
    else RowCount(rows[..|rows| - 1], node) + if rows[|rows| - 1].node == node then 1 else 0
  }

  function NodeTally(perNode: map<string, Tally>, node: string): Tally {
    if node in perNode then perNode[node] else map[]
  }

  function NodePods(podsPerNode: map<string, nat>, node: string): nat {
    if node in podsPerNode then podsPerNode[node] else 0
  }

  lemma RowsAppend(rows: seq<PodUsage>, row: PodUsage, p: Pick, node: string)
    ensures RowTally(rows + [row], p) == if PicksRow(p, row) then Plus(RowTally(rows, p), row.resources) else RowTally(rows, p)
    ensures RowCount(rows + [row], node) == RowCount(rows, node) + if row.node == node then 1 else 0
  {
    assert (rows + [row])[..|rows|] == rows;
  }

  lemma RowsStep(pods: seq<Pod>, i: nat)
    requires i < |pods|
    ensures var p := pods[i];
            Rows(pods[..i + 1])
            == if !Terminated(p) && RowFor(p).resources != map[] then Rows(pods[..i]) + [RowFor(p)] else Rows(pods[..i])
  {
    assert pods[..i + 1][..i] == pods[..i];
  }

  method TallyPods(pods: seq<Pod>)
    returns (used: Tally, perNode: map<string, Tally>, podsPerNode: map<string, nat>, rows: seq<PodUsage>)
    ensures rows == Rows(pods) && used == RowTally(rows, All)
    ensures OnNodes(rows, perNode, podsPerNode)
  {
    used, perNode, podsPerNode, rows := map[], map[], map[], [];
    for i := 0 to |pods|
      invariant rows == Rows(pods[..i]) && used == RowTally(rows, All)
      invariant OnNodes(rows, perNode, podsPerNode)
    {
      if Terminated(pods[i]) {
        RowsStep(pods, i);
        continue;
      }
      var row, has := PodRowFor(pods[i]);
      RowsStep(pods, i);
      if !has {
        continue;
      }
      used := AddAll(used, row.resources);
      RowsAppend(rows, row, All, "");
      perNode, podsPerNode := TallyNode(row, perNode, podsPerNode, rows);
      rows := rows + [row];
    }
    assert pods[..|pods|] == pods;
  }

  /** The per-node part of the loop body. */
  method TallyNode(row: PodUsage, perNode: map<string, Tally>, podsPerNode: map<string, nat>, ghost rows: seq<PodUsage>)
    returns (perNode': map<string, Tally>, podsPerNode': map<string, nat>)
    requires OnNodes(rows, perNode, podsPerNode)
    ensures OnNodes(rows + [row], perNode', podsPerNode')
  {
    perNode', podsPerNode' := perNode, podsPerNode;
    if row.node != "" {
      var t := AddAll(NodeTally(perNode, row.node), row.resources);
      perNode' := perNode[row.node := t];
      podsPerNode' := podsPerNode[row.node := NodePods(podsPerNode, row.node) + 1];
    }
    forall n
      ensures NodeTally(perNode', n) == (if n == "" then map[] else RowTally(rows + [row], OnNode(n)))
      ensures NodePods(podsPerNode', n) == (if n == "" then 0 else RowCount(rows + [row], n))
    {
      RowsAppend(rows, row, OnNode(n), n);
      assert NodeTally(perNode, n) == (if n == "" then map[] else RowTally(rows, OnNode(n)));
      assert NodePods(podsPerNode, n) == (if n == "" then 0 else RowCount(rows, n));
    }
  }

  /** The per-node maps hold exactly the scheduled rows. */
  ghost predicate OnNodes(rows: seq<PodUsage>, perNode: map<string, Tally>, podsPerNode: map<string, nat>) {
    && (forall n :: NodeTally(perNode, n) == if n == "" then map[] else RowTally(rows, OnNode(n)))
    && (forall n :: NodePods(podsPerNode, n) == if n == "" then 0 else RowCount(rows, n))
  }

  // ----- nodes -------------------------------------------------------------

  function Capacity(n: Node): Tally {
    map k | k in n.allocatable.Keys && IsAcceleratorKey(k) :: n.allocatable[k]
  }

  function Capacities(nodes: seq<Node>): seq<Tally> {
    if nodes == [] then [] else Capacities(nodes[..|nodes| - 1]) + [Capacity(nodes[|nodes| - 1])]
  }

  function SummaryOf(n: Node, rows: seq<PodUsage>): NodeSummary {
    if n.name == "" then NodeSummary("", Capacity(n), map[], 0)
    else NodeSummary(n.name, Capacity(n), RowTally(rows, OnNode(n.name)), RowCount(rows, n.name))
  }

  /** The nodes that offer accelerators, with what the pod rows use of them. */
  function NodeRows(nodes: seq<Node>, rows: seq<PodUsage>): seq<NodeSummary> {
    if nodes == [] then []
    else
      var n := nodes[|nodes| - 1];
      NodeRows(nodes[..|nodes| - 1], rows) + if Capacity(n) != map[] then [SummaryOf(n, rows)] else []
  }

  method CapacityOf(n: Node, alloc: Tally) returns (capacity: Tally, r: Tally)
    ensures capacity == Capacity(n) && r == Plus(alloc, capacity)
  {
    capacity, r := AddAmounts(n.allocatable, alloc, map[]);
    assert capacity.Keys == Capacity(n).Keys;
  }

  method ListNodes(nodes: seq<Node>) returns (list: seq<(string, Tally)>, alloc: Tally)
    ensures list == Offers(nodes) && alloc == Sum(Capacities(nodes))
  {
    list, alloc := [], map[];
    for i := 0 to |nodes|
      invariant list == Offers(nodes[..i]) && alloc == Sum(Capacities(nodes[..i]))
    {
      assert nodes[..i + 1][..i] == nodes[..i];
      var c: Tally;
      c, alloc := CapacityOf(nodes[i], alloc);
      assert Capacities(nodes[..i + 1])[..i] == Capacities(nodes[..i]) by { CapacitiesSize(nodes[..i]); }
      CapacitiesSize(nodes[..i + 1]);
      if c != map[] {
        list := list + [(nodes[i].name, c)];
      }
    }
    assert nodes[..|nodes|] == nodes;
  }

  lemma {:induction false} CapacitiesSize(nodes: seq<Node>)
    ensures |Capacities(nodes)| == |nodes|
  {
    if nodes != [] {
      CapacitiesSize(nodes[..|nodes| - 1]);
    }
  }

  function Offers(nodes: seq<Node>): seq<(string, Tally)> {
    if nodes == [] then []
    else
      var n := nodes[|nodes| - 1];
      Offers(nodes[..|nodes| - 1]) + if Capacity(n) != map[] then [(n.name, Capacity(n))] else []
  }

  // ----- the headline ------------------------------------------------------

  /** All keys offered or used, once each, ascending. */
  ghost predicate IsKeyList(ks: seq<string>, alloc: Tally, used: Tally) {
    Ascends(Singles(ks)) && forall k :: k in ks <==> k in alloc || k in used
  }

  lemma KeyListUnique(a: seq<string>, b: seq<string>, alloc: Tally, used: Tally)
    requires IsKeyList(a, alloc, used) && IsKeyList(b, alloc, used)
    ensures a == b
  {
    forall k
      ensures k in Singles(a) <==> k in Singles(b)
    {
      SinglesMember(a, k);
      SinglesMember(b, k);
    }
    AscendsUnique(Singles(a), Singles(b));
    assert forall i :: 0 <= i < |a| ==> Singles(a)[i][0] == a[i] && Singles(b)[i][0] == b[i];
  }

  /** Vendors and summary for the given tallies. */
  ghost predicate Headlines(out: Status, alloc: Tally, used: Tally) {
    (exists ks :: IsKeyList(ks, alloc, used) && Grouping(out.vendors, ks, alloc, used))
    && out.summary == Summary(out.vendors)
  }

  lemma HeadlinesUnique(a: Status, b: Status, alloc: Tally, used: Tally)
    requires Headlines(a, alloc, used) && Headlines(b, alloc, used)
    ensures a.vendors == b.vendors && a.summary == b.summary
  {
    var x :| IsKeyList(x, alloc, used) && Grouping(a.vendors, x, alloc, used);
    var y :| IsKeyList(y, alloc, used) && Grouping(b.vendors, y, alloc, used);
    KeyListUnique(x, y, alloc, used);
    GroupingUnique(a.vendors, b.vendors, x, alloc, used);
  }

  /** The summary never understates what is free, and is exact when and only when
      no vendor's headline key is oversubscribed. */
  lemma HeadlineBound(out: Status, alloc: Tally, used: Tally)
    requires Headlines(out, alloc, used) && "" !in alloc && "" !in used
    ensures var s := out.summary;
            s.available >= s.total - s.used
            && (s.available == s.total - s.used
                <==> forall i :: 0 <= i < |out.vendors| ==> !Oversubscribed(out.vendors[i]))
  {
    var ks :| IsKeyList(ks, alloc, used) && Grouping(out.vendors, ks, alloc, used);
    GroupingCounts(out.vendors, ks, alloc, used);
    SummaryBound(out.vendors, alloc, used);
  }

  method Headline(alloc: Tally, used: Tally, out: Status) returns (r: Status)
    requires "" !in alloc && "" !in used
    ensures Headlines(r, alloc, used) && r == out.(vendors := r.vendors, summary := r.summary)
  {
    var keyList := ListNames(alloc.Keys + used.Keys);
    var vendors := GroupByVendor(keyList, alloc, used);
    var summary := Summarise(vendors);
    r := out.(vendors := vendors, summary := summary);
    assert IsKeyList(keyList, alloc, used) && Grouping(r.vendors, keyList, alloc, used);
  }

  method Summarise(vendors: seq<VendorSummary>) returns (summary: Counts)
    ensures summary == Summary(vendors)
  {
    summary := ZERO;
    for i := 0 to |vendors|
      invariant summary == Summary(vendors[..i])
    {
      assert vendors[..i + 1][..i] == vendors[..i];
      var c := vendors[i].counts;
      summary := Counts(summary.total + c.total, summary.used + c.used, summary.available + c.available);
    }
    assert vendors[..|vendors|] == vendors;
  }

  // ----- the report --------------------------------------------------------

  function ByName(rows: seq<PodUsage>): (r: seq<Keyed<PodUsage>>)
    ensures |r| == |rows| && forall i :: 0 <= i < |rows| ==> r[i] == Keyed([rows[i].namespace_, rows[i].name], rows[i])
  {
    seq(|rows|, i requires 0 <= i < |rows| => Keyed([rows[i].namespace_, rows[i].name], rows[i]))
  }

  function ByNode(rows: seq<NodeSummary>): (r: seq<Keyed<NodeSummary>>)
    ensures |r| == |rows| && forall i :: 0 <= i < |rows| ==> r[i] == Keyed([rows[i].node], rows[i])
  {
    seq(|rows|, i requires 0 <= i < |rows| => Keyed([rows[i].node], rows[i]))
  }

  /** The report on these nodes and pods. */
  ghost predicate ReportsOn(out: Status, nodes: seq<Node>, pods: seq<Pod>) {
    && out.pods == Items(Sort(ByName(Rows(pods))))
    && out.nodes == Items(Sort(ByNode(NodeRows(nodes, Rows(pods)))))
    && Headlines(out, Sum(Capacities(nodes)), RowTally(Rows(pods), All))
  }

  /** What the apiserver lets this caller see; a listing that fails reads as empty. */
  datatype Listings = Listings(nodes: Result<seq<Node>>, all: Result<seq<Pod>>, namespaced: Result<seq<Pod>>)

  function NodesSeen(opts: Options, l: Listings): seq<Node> {
    if opts.isAdmin && l.nodes.Ok? then l.nodes.value else []
  }

  function PodsSeen(opts: Options, l: Listings): seq<Pod> {
    if opts.scope == "cluster" && opts.isAdmin then (if l.all.Ok? then l.all.value else [])
    else if opts.namespace_ != "" then (if l.namespaced.Ok? then l.namespaced.value else [])
    else []
  }

  method StatusFromApiserver(opts: Options, l: Listings) returns (out: Status)
    ensures ReportsOn(out, NodesSeen(opts, l), PodsSeen(opts, l))
    ensures out.scope == opts.scope && out.target == opts.namespace_
  {
    out := EmptyStatus(opts);
    var offers, alloc := ListNodes(NodesSeen(opts, l));
    var used, perNode, podsPerNode, rows := TallyPods(PodsSeen(opts, l));
    var nodes := FoldNodes(NodesSeen(opts, l), offers, perNode, podsPerNode, rows);
    AcceleratorKeys(NodesSeen(opts, l), PodsSeen(opts, l));
    out := Headline(alloc, used, out);
    HeadlinesStay(out, Items(Sort(ByNode(nodes))), Items(Sort(ByName(rows))), alloc, used);
    out := out.(nodes := Items(Sort(ByNode(nodes))), pods := Items(Sort(ByName(rows))));
  }

  lemma HeadlinesStay(out: Status, nodes: seq<NodeSummary>, pods: seq<PodUsage>, alloc: Tally, used: Tally)
    requires Headlines(out, alloc, used)
    ensures Headlines(out.(nodes := nodes, pods := pods), alloc, used)
  {
    var ks :| IsKeyList(ks, alloc, used) && Grouping(out.vendors, ks, alloc, used);
    assert Grouping(out.(nodes := nodes, pods := pods).vendors, ks, alloc, used);
  }

  method FoldNodes(ghost seen: seq<Node>, offers: seq<(string, Tally)>, perNode: map<string, Tally>,
                   podsPerNode: map<string, nat>, rows: seq<PodUsage>) returns (nodes: seq<NodeSummary>)
    requires offers == Offers(seen) && OnNodes(rows, perNode, podsPerNode)
    ensures nodes == NodeRows(seen, rows)
  {
    nodes := [];
    for i := 0 to |offers|
      invariant |nodes| == i
      invariant forall j :: 0 <= j < i ==> nodes[j] == Folded(offers[j], rows)
    {
      var (name, capacity) := offers[i];
      nodes := nodes + [NodeSummary(name, capacity, NodeTally(perNode, name), NodePods(podsPerNode, name))];
    }
    FoldedNodes(seen, rows, nodes);
  }

  function Folded(offer: (string, Tally), rows: seq<PodUsage>): NodeSummary {
    if offer.0 == "" then NodeSummary("", offer.1, map[], 0)
    else NodeSummary(offer.0, offer.1, RowTally(rows, OnNode(offer.0)), RowCount(rows, offer.0))
  }

  lemma {:induction false} FoldedNodes(nodes: seq<Node>, rows: seq<PodUsage>, out: seq<NodeSummary>)
    requires |out| == |Offers(nodes)| && forall j :: 0 <= j < |out| ==> out[j] == Folded(Offers(nodes)[j], rows)
    ensures out == NodeRows(nodes, rows)
  {
    if nodes != [] {
      var front := nodes[..|nodes| - 1];
      FoldedNodes(front, rows, out[..|Offers(front)|]);
    }
  }

  lemma AcceleratorKeys(nodes: seq<Node>, pods: seq<Pod>)
    ensures "" !in Sum(Capacities(nodes)) && "" !in RowTally(Rows(pods), All)
  {
    NoBlankCapacity(nodes);
    NoBlankUse(pods);
  }

  lemma {:induction false} NoBlankCapacity(nodes: seq<Node>)
    ensures "" !in Sum(Capacities(nodes))
  {
    if nodes != [] {
      NoBlankCapacity(nodes[..|nodes| - 1]);
      CapacitiesSize(nodes);
      CapacitiesSize(nodes[..|nodes| - 1]);
      assert Capacities(nodes)[..|nodes| - 1] == Capacities(nodes[..|nodes| - 1]);
    }
  }

  lemma {:induction false} NoBlankContainers(cs: seq<Container>)
    ensures "" !in Sum(Effectives(cs))
  {
    if cs != [] {
      NoBlankContainers(cs[..|cs| - 1]);
      EffectivesStep(cs);
    }
  }

  lemma {:induction false} NoBlankUse(pods: seq<Pod>)
    ensures "" !in RowTally(Rows(pods), All)
  {
    if pods != [] {
      NoBlankUse(pods[..|pods| - 1]);
      NoBlankContainers(pods[|pods| - 1].containers);
      var rows := Rows(pods[..|pods| - 1]);
      RowsAppend(rows, RowFor(pods[|pods| - 1]), All, "");
      assert rows + [] == rows;
    }
  }

  // ----- conservation ------------------------------------------------------

  /** Every container of every pod that has not terminated. */
  function LiveAmounts(pods: seq<Pod>): seq<Tally> {
    if pods == [] then []
    else
      var p := pods[|pods| - 1];
      LiveAmounts(pods[..|pods| - 1]) + if Terminated(p) then [] else Effectives(p.containers)
  }

  /** Usage over the pod rows is the sum, over all containers of all live pods,
      of the effective amounts; terminated pods add nothing. */
  lemma {:induction false} UsageIsContainers(pods: seq<Pod>)
    ensures RowTally(Rows(pods), All) == Sum(LiveAmounts(pods))
  {
    if pods != [] {
      var front, p := pods[..|pods| - 1], pods[|pods| - 1];
      UsageIsContainers(front);
      var rows, row := Rows(front), RowFor(p);
      RowsAppend(rows, row, All, "");
      assert rows + [] == rows && LiveAmounts(front) + [] == LiveAmounts(front);
      if !Terminated(p) {
        SumConcat(LiveAmounts(front), Effectives(p.containers));
        PlusLaws(RowTally(rows, All), map[], map[]);
      }
    }
  }

  function PerNode(rows: seq<PodUsage>, names: seq<string>): seq<Tally> {
    if names == [] then [] else PerNode(rows, names[..|names| - 1]) + [RowTally(rows, OnNode(names[|names| - 1]))]
  }

  function PodsOver(rows: seq<PodUsage>, names: seq<string>): nat {
    if names == [] then 0 else PodsOver(rows, names[..|names| - 1]) + RowCount(rows, names[|names| - 1])
  }

  ghost predicate NoTwice(names: seq<string>) {
    forall i, j :: 0 <= i < j < |names| ==> names[i] != names[j]
  }

  lemma {:induction false} AddRow(rows: seq<PodUsage>, row: PodUsage, names: seq<string>)
    requires NoTwice(names)
    ensures Sum(PerNode(rows + [row], names))
            == if row.node in names then Plus(Sum(PerNode(rows, names)), row.resources) else Sum(PerNode(rows, names))
    ensures PodsOver(rows + [row], names) == PodsOver(rows, names) + if row.node in names then 1 else 0
  {
    if names != [] {
      var front, n := names[..|names| - 1], names[|names| - 1];
      AddRow(rows, row, front);
      assert (rows + [row])[..|rows|] == rows;
      PerNodeStep(rows, names);
      PerNodeStep(rows + [row], names);
      assert names == front + [n];
      assert n !in front;
      PlusLaws(Sum(PerNode(rows, front)), RowTally(rows, OnNode(n)), row.resources);
      PlusLaws(Sum(PerNode(rows, front)), row.resources, RowTally(rows, OnNode(n)));
      PlusLaws(row.resources, RowTally(rows, OnNode(n)), map[]);
    }
  }

  lemma {:induction false} PerNodeStep(rows: seq<PodUsage>, names: seq<string>)
    requires names != []
    ensures Sum(PerNode(rows, names))
            == Plus(Sum(PerNode(rows, names[..|names| - 1])), RowTally(rows, OnNode(names[|names| - 1])))
  {
    var ts := PerNode(rows, names);
    assert ts[..|ts| - 1] == PerNode(rows, names[..|names| - 1]);
  }

  /** For every list of distinct node names that covers the rows ("" standing
      for unscheduled), what is used on them adds up to the cluster usage, and
      each row counts on exactly one of them. */
  lemma {:induction false} UsageIsNodes(rows: seq<PodUsage>, names: seq<string>)
    requires NoTwice(names) && forall r :: r in rows ==> r.node in names
    ensures Sum(PerNode(rows, names)) == RowTally(rows, All)
    ensures PodsOver(rows, names) == |rows|
  {
    if rows == [] {
      EmptyPerNode(names);
    } else {
      var front, r := rows[..|rows| - 1], rows[|rows| - 1];
      assert rows == front + [r];
      assert r in rows;
      UsageIsNodes(front, names);
      AddRow(front, r, names);
    }
  }

  lemma {:induction false} EmptyPerNode(names: seq<string>)
    ensures Sum(PerNode([], names)) == map[] && PodsOver([], names) == 0
  {
    if names != [] {
      EmptyPerNode(names[..|names| - 1]);
      PerNodeStep([], names);
      PlusLaws(map[], map[], map[]);
    }
  }

  /** The report conserves every key: the tally its vendor rows are built from is
      the sum over containers, the sum over pods, and the sum over nodes plus
      what unscheduled pods ask for. */
  lemma UsageIsConserved(pods: seq<Pod>, names: seq<string>)
    requires NoTwice(names) && forall r :: r in Rows(pods) ==> r.node in names
    ensures var rows := Rows(pods);
            RowTally(rows, All) == Sum(LiveAmounts(pods)) == Sum(PerNode(rows, names)) && PodsOver(rows, names) == |rows|
  {
    UsageIsContainers(pods);
    UsageIsNodes(Rows(pods), names);
  }

  lemma KeysAreListed(out: Status, alloc: Tally, used: Tally, k: string)
    requires Headlines(out, alloc, used)
    ensures multiset(AllKeys(out.vendors))[k] == if k in used || k in alloc then 1 else 0
  {
    var ks :| IsKeyList(ks, alloc, used) && Grouping(out.vendors, ks, alloc, used);
    RowsPartitionKeys(out.vendors, ks, alloc, used);
    CountOnce(ks, k);
  }

  /** In the finished report each key is listed in exactly one vendor row. */
  lemma EachKeyOnce(out: Status, nodes: seq<Node>, pods: seq<Pod>, k: string)
    requires ReportsOn(out, nodes, pods)
    ensures multiset(AllKeys(out.vendors))[k]
            == if k in Sum(LiveAmounts(pods)) || k in Sum(Capacities(nodes)) then 1 else 0
  {
    UsageIsContainers(pods);
    KeysAreListed(out, Sum(Capacities(nodes)), RowTally(Rows(pods), All), k);
  }

  /** The usage shown for a key is what the live containers ask for, the total
      what the nodes offer. */
  lemma ReportConserves(out: Status, nodes: seq<Node>, pods: seq<Pod>, i: nat, k: string)
    requires ReportsOn(out, nodes, pods) && i < |out.vendors| && k in out.vendors[i].keys
    ensures k in out.vendors[i].byKey
    ensures out.vendors[i].byKey[k] == CountsOf(k, Sum(Capacities(nodes)), Sum(LiveAmounts(pods)))
  {
    var used, total := RowTally(Rows(pods), All), Sum(Capacities(nodes));
    UsageIsContainers(pods);
    AcceleratorKeys(nodes, pods);
    var ks :| IsKeyList(ks, total, used) && Grouping(out.vendors, ks, total, used);
    HeadlineIsOwn(out.vendors, ks, total, used, i);
  }

  lemma {:induction false} CountOnce(ks: seq<string>, k: string)
    requires Ascends(Singles(ks))
    ensures multiset(ks)[k] == if k in ks then 1 else 0
  {
    if ks != [] {
      var front, x := ks[..|ks| - 1], ks[|ks| - 1];
      assert ks == front + [x];
      assert Singles(front) == Singles(ks)[..|front|];
      CountOnce(front, k);
      AscendsDistinct(Singles(ks));
      assert forall i :: 0 <= i < |front| ==> Singles(ks)[i] == [front[i]] && Singles(ks)[|front|] == [x];
      assert x !in front;
    }
  }
}
