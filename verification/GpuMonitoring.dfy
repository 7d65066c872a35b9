/** The status report computed from metric samples, and its agreement with the
    one computed from the cluster's objects. */
module GpuMonitoring {
  import opened Text
  import opened Order
  import opened GpuKeys
  import opened GpuTally
  import opened GpuVendors
  import opened GpuStatus
  import opened GpuReadings

  /** One row of a query response. */
  datatype Sample = Sample(metric: map<string, string>, value: real)

  function Label(s: Sample, name: string): string {
    if name in s.metric then s.metric[name] else ""
  }

  /** Go's int64(float64): towards zero. */
  function Trunc(x: real): int {
    if x < 0.0 then -((-x).Floor) else x.Floor
  }

  function KeyOf(s: Sample): string {
    CanonicalResourceKey(Label(s, "resource"))
  }

  // ----- samples read as observations --------------------------------------

  function CapacityReading(s: Sample): Option<Reading> {
    if !IsAcceleratorKey(KeyOf(s)) || Label(s, "node") == "" then None
    else Some(Reading("", "", Label(s, "node"), "", KeyOf(s), Trunc(s.value)))
  }

  function RequestReading(s: Sample): Option<Reading> {
    if !IsAcceleratorKey(KeyOf(s)) || Label(s, "namespace") == "" || Label(s, "pod") == "" then None
    else Some(Reading(Label(s, "namespace"), Label(s, "pod"), Label(s, "node"), Label(s, "container"), KeyOf(s),
                      Trunc(s.value)))
  }

  datatype Query = CapacityQuery | RequestQuery

  function ReadingOf(q: Query, s: Sample): Option<Reading> {
    match q
    case CapacityQuery => CapacityReading(s)
    case RequestQuery => RequestReading(s)
  }

  function Readings(q: Query, ss: seq<Sample>): seq<Reading> {
    if ss == [] then []
    else
      var r := ReadingOf(q, ss[|ss| - 1]);
      Readings(q, ss[..|ss| - 1]) + if r.Some? then [r.value] else []
  }

  // ----- the aggregation loops ---------------------------------------------

  /** Capacity per node, for the nodes seen so far. */
  ghost predicate Offered(nodes: map<string, Tally>, caps: seq<Reading>) {
    && (forall n :: n in nodes <==> Mentions(caps, OnNode(n)))
    && (forall n :: n in nodes ==> nodes[n] == Of(caps, OnNode(n)))
  }

  method CollectCapacities(caps: seq<Sample>) returns (nodes: map<string, Tally>, alloc: Tally)
    ensures Offered(nodes, Readings(CapacityQuery, caps)) && alloc == Of(Readings(CapacityQuery, caps), All)
  {
    nodes, alloc := map[], map[];
    for i := 0 to |caps|
      invariant Offered(nodes, Readings(CapacityQuery, caps[..i]))
      invariant alloc == Of(Readings(CapacityQuery, caps[..i]), All)
    {
      assert caps[..i + 1][..i] == caps[..i];
      ghost var before := Readings(CapacityQuery, caps[..i]);
      var key := CanonicalResourceKey(Label(caps[i], "resource"));
      if !IsAcceleratorKey(key) {
        assert Readings(CapacityQuery, caps[..i + 1]) == before;
        continue;
      }
      var node := Label(caps[i], "node");
      if node == "" {
        assert Readings(CapacityQuery, caps[..i + 1]) == before;
        continue;
      }
      ghost var r := Reading("", "", node, "", key, Trunc(caps[i].value));
      assert Readings(CapacityQuery, caps[..i + 1]) == before + [r];
      OfferStep(nodes, before, r);
      AppendReading(before, r, All);
      nodes := nodes[node := Bump(NodeTally(nodes, node), key, Trunc(caps[i].value))];
      alloc := Bump(alloc, key, Trunc(caps[i].value));
    }
    assert caps[..|caps|] == caps;
  }

  lemma AppendReading(us: seq<Reading>, r: Reading, p: Pick)
    ensures Of(us + [r], p) == if Picks(p, r) then Bump(Of(us, p), r.key, r.n) else Of(us, p)
    ensures Mentions(us + [r], p) <==> Mentions(us, p) || Picks(p, r)
  {
    assert (us + [r])[..|us|] == us;
    assert (us + [r])[|us|] == r;
    if Mentions(us, p) {
      var u :| u in us && Picks(p, u);
      assert u in us + [r];
    }
    if Picks(p, r) {
      assert r in us + [r];
    }
  }

  lemma OfferStep(nodes: map<string, Tally>, caps: seq<Reading>, r: Reading)
    requires Offered(nodes, caps)
    ensures Offered(nodes[r.node := Bump(NodeTally(nodes, r.node), r.key, r.n)], caps + [r])
  {
    var ns := nodes[r.node := Bump(NodeTally(nodes, r.node), r.key, r.n)];
    forall n
      ensures n in ns <==> Mentions(caps + [r], OnNode(n))
      ensures n in ns ==> ns[n] == Of(caps + [r], OnNode(n))
    {
      AppendReading(caps, r, OnNode(n));
      OfNothing(caps, OnNode(n));
      assert n in nodes <==> Mentions(caps, OnNode(n));
    }
  }

  /** The state of the second loop: rows by pod, the tallies, and the pods
      already counted on their node. */
  datatype Books = Books(rows: map<Key, PodUsage>, used: Tally, perNode: map<string, Tally>,
                         podsPerNode: map<string, nat>, seen: set<Key>)

  function ContainerTallies(cs: seq<ContainerUsage>): seq<Tally> {
    if cs == [] then [] else ContainerTallies(cs[..|cs| - 1]) + [cs[|cs| - 1].resources]
  }

  ghost predicate HasEntry(cs: seq<ContainerUsage>, c: string) {
    exists i :: 0 <= i < |cs| && cs[i].name == c
  }

  /** One entry per container observed, each with that container's tally. */
  ghost predicate EntriesOk(cs: seq<ContainerUsage>, ns: string, pod: string, hs: seq<Reading>) {
    && (forall i, j :: 0 <= i < j < |cs| ==> cs[i].name != cs[j].name)
    && (forall i :: 0 <= i < |cs| ==> cs[i].resources == Of(hs, OfContainer(ns, pod, cs[i].name)))
    && (forall c :: HasEntry(cs, c) <==> Mentions(hs, OfContainer(ns, pod, c)))
  }

  /** Find or create the container's entry and add to it. */
  method AddToContainer(cs: seq<ContainerUsage>, h: Reading, ghost hs: seq<Reading>) returns (r: seq<ContainerUsage>)
    requires EntriesOk(cs, h.namespace_, h.pod, hs)
    ensures Sum(ContainerTallies(r)) == Bump(Sum(ContainerTallies(cs)), h.key, h.n)
    ensures EntriesOk(r, h.namespace_, h.pod, hs + [h])
  {
    for i := 0 to |cs|
      invariant forall j :: 0 <= j < i ==> cs[j].name != h.container
    {
      if cs[i].name == h.container {
        BumpOne(cs, i, h.key, h.n);
        EntryBumped(cs, i, h, hs);
        return cs[i := ContainerUsage(h.container, Bump(cs[i].resources, h.key, h.n))];
      }
    }
    r := cs + [ContainerUsage(h.container, map[h.key := h.n])];
    assert r[..|cs|] == cs;
    ContainerSum(r);
    BumpIsPlus(Sum(ContainerTallies(cs)), h.key, h.n);
    EntryAdded(cs, h, hs);
  }

  lemma EntryBumped(cs: seq<ContainerUsage>, i: nat, h: Reading, hs: seq<Reading>)
    requires EntriesOk(cs, h.namespace_, h.pod, hs) && i < |cs| && cs[i].name == h.container
    ensures EntriesOk(cs[i := ContainerUsage(h.container, Bump(cs[i].resources, h.key, h.n))], h.namespace_, h.pod, hs + [h])
  {
    var r := cs[i := ContainerUsage(h.container, Bump(cs[i].resources, h.key, h.n))];
    forall j | 0 <= j < |r|
      ensures r[j].name == cs[j].name && r[j].resources == Of(hs + [h], OfContainer(h.namespace_, h.pod, r[j].name))
    {
      AppendReading(hs, h, OfContainer(h.namespace_, h.pod, cs[j].name));
    }
    forall c
      ensures HasEntry(r, c) <==> Mentions(hs + [h], OfContainer(h.namespace_, h.pod, c))
    {
      AppendReading(hs, h, OfContainer(h.namespace_, h.pod, c));
      assert HasEntry(cs, h.container);
      SameNames(cs, r, c);
    }
  }

  lemma SameNames(cs: seq<ContainerUsage>, r: seq<ContainerUsage>, c: string)
    requires |r| == |cs| && forall j :: 0 <= j < |r| ==> r[j].name == cs[j].name
    ensures HasEntry(r, c) <==> HasEntry(cs, c)
  {
  }

  lemma EntryAdded(cs: seq<ContainerUsage>, h: Reading, hs: seq<Reading>)
    requires EntriesOk(cs, h.namespace_, h.pod, hs) && !HasEntry(cs, h.container)
    ensures EntriesOk(cs + [ContainerUsage(h.container, map[h.key := h.n])], h.namespace_, h.pod, hs + [h])
  {
    var r := cs + [ContainerUsage(h.container, map[h.key := h.n])];
    EntryAmounts(cs, h, hs, r);
    forall c
      ensures HasEntry(r, c) <==> Mentions(hs + [h], OfContainer(h.namespace_, h.pod, c))
    {
      AppendReading(hs, h, OfContainer(h.namespace_, h.pod, c));
      OneMoreName(cs, r, c);
    }
  }

  lemma EntryAmounts(cs: seq<ContainerUsage>, h: Reading, hs: seq<Reading>, r: seq<ContainerUsage>)
    requires EntriesOk(cs, h.namespace_, h.pod, hs) && !HasEntry(cs, h.container)
    requires r == cs + [ContainerUsage(h.container, map[h.key := h.n])]
    ensures forall j :: 0 <= j < |r| ==> r[j].resources == Of(hs + [h], OfContainer(h.namespace_, h.pod, r[j].name))
  {
    var own := OfContainer(h.namespace_, h.pod, h.container);
    OfNothing(hs, own);
    AppendReading(hs, h, own);
    forall j | 0 <= j < |cs|
      ensures r[j] == cs[j] && cs[j].resources == Of(hs + [h], OfContainer(h.namespace_, h.pod, cs[j].name))
    {
      assert cs[j].name != h.container;
      AppendReading(hs, h, OfContainer(h.namespace_, h.pod, cs[j].name));
    }
  }

  lemma OneMoreName(cs: seq<ContainerUsage>, r: seq<ContainerUsage>, c: string)
    requires |r| == |cs| + 1 && r[..|cs|] == cs
    ensures HasEntry(r, c) <==> HasEntry(cs, c) || c == r[|cs|].name
  {
    forall j | 0 <= j < |cs|
      ensures r[j] == cs[j]
    {
      assert r[..|cs|][j] == cs[j];
    }
    if HasEntry(cs, c) {
      var i :| 0 <= i < |cs| && cs[i].name == c;
      assert r[i].name == c;
    }
  }

  lemma EntriesElsewhere(cs: seq<ContainerUsage>, ns: string, pod: string, h: Reading, hs: seq<Reading>)
    requires EntriesOk(cs, ns, pod, hs) && (h.namespace_ != ns || h.pod != pod)
    ensures EntriesOk(cs, ns, pod, hs + [h])
  {
    forall c
      ensures Of(hs + [h], OfContainer(ns, pod, c)) == Of(hs, OfContainer(ns, pod, c))
      ensures Mentions(hs + [h], OfContainer(ns, pod, c)) <==> Mentions(hs, OfContainer(ns, pod, c))
    {
      AppendReading(hs, h, OfContainer(ns, pod, c));
    }
  }

  lemma NoEntries(ns: string, pod: string, hs: seq<Reading>)
    requires !Mentions(hs, OfPod(ns, pod))
    ensures EntriesOk([], ns, pod, hs)
  {
    forall c
      ensures !Mentions(hs, OfContainer(ns, pod, c))
    {
      if Mentions(hs, OfContainer(ns, pod, c)) {
        var u :| u in hs && Picks(OfContainer(ns, pod, c), u);
        assert Picks(OfPod(ns, pod), u);
      }
    }
  }

  lemma ContainerSum(cs: seq<ContainerUsage>)
    requires cs != []
    ensures Sum(ContainerTallies(cs)) == Plus(Sum(ContainerTallies(cs[..|cs| - 1])), cs[|cs| - 1].resources)
  {
    var ts := ContainerTallies(cs);
    assert ts[..|ts| - 1] == ContainerTallies(cs[..|cs| - 1]);
  }

  lemma {:induction false} BumpOne(cs: seq<ContainerUsage>, i: nat, key: string, n: int)
    requires i < |cs|
    ensures Sum(ContainerTallies(cs[i := cs[i].(resources := Bump(cs[i].resources, key, n))]))
            == Bump(Sum(ContainerTallies(cs)), key, n)
  {
    var c := cs[i].(resources := Bump(cs[i].resources, key, n));
    var r := cs[i := c];
    var front, last := cs[..|cs| - 1], cs[|cs| - 1];
    ContainerSum(cs);
    ContainerSum(r);
    var one: Tally := map[key := n];
    BumpIsPlus(Sum(ContainerTallies(cs)), key, n);
    BumpIsPlus(cs[i].resources, key, n);
    BumpIsPlus(Sum(ContainerTallies(front)), key, n);
    if i == |front| {
      assert r[..|r| - 1] == front;
      PlusAssociates(Sum(ContainerTallies(front)), last.resources, one);
    } else {
      BumpOne(front, i, key, n);
      assert r[..|r| - 1] == front[i := c];
      var s := Sum(ContainerTallies(front));
      PlusAssociates(s, one, last.resources);
      PlusAssociates(s, last.resources, one);
      PlusCommutes(one, last.resources);
    }
  }

  function PodKey(r: Reading): Key { [r.namespace_, r.pod] }

  /** A row under its pod's key, with that pod's tally, split over containers. */
  ghost predicate RowBooked(k: Key, row: PodUsage, hs: seq<Reading>) {
    && k == [row.namespace_, row.name] && row.phase == "Running"
    && row.resources == Of(hs, OfPod(row.namespace_, row.name))
    && Sum(ContainerTallies(row.containers)) == row.resources
    && EntriesOk(row.containers, row.namespace_, row.name, hs)
  }

  /** An observation is on the node its pod's row names. */
  ghost predicate OnRow(rows: map<Key, PodUsage>, u: Reading) {
    PodKey(u) in rows && rows[PodKey(u)].node == u.node
  }

  /** The rows hold exactly the pods observed, each with its tally and node. */
  ghost predicate RowsBooked(rows: map<Key, PodUsage>, hs: seq<Reading>) {
    && (forall k :: k in rows ==> RowBooked(k, rows[k], hs))
    && (forall ns, p :: [ns, p] in rows <==> Mentions(hs, OfPod(ns, p)))
    && (forall u :: u in hs ==> OnRow(rows, u))
  }

  /** The per-node books hold exactly the scheduled observations. */
  ghost predicate NodesBooked(perNode: map<string, Tally>, podsPerNode: map<string, nat>, hs: seq<Reading>) {
    && (forall n :: NodeTally(perNode, n) == if n == "" then map[] else Of(hs, OnNode(n)))
    && (forall n :: NodePods(podsPerNode, n) == if n == "" then 0 else |PodSet(hs, n)|)
  }

  ghost predicate Booked(b: Books, hs: seq<Reading>) {
    && RowsBooked(b.rows, hs) && b.used == Of(hs, All) && NodesBooked(b.perNode, b.podsPerNode, hs)
    && SeenOk(b.seen, b.rows)
  }

  /** The pods counted so far are the scheduled ones. */
  ghost predicate SeenOk(seen: set<Key>, rows: map<Key, PodUsage>) {
    forall k :: k in seen <==> k in rows && rows[k].node != ""
  }

  lemma SeenStep(seen: set<Key>, rows: map<Key, PodUsage>, pk: Key, row: PodUsage)
    requires SeenOk(seen, rows) && (pk in rows ==> rows[pk].node == row.node)
    ensures SeenOk(if row.node != "" then seen + {pk} else seen, rows[pk := row])
  {
  }

  /** The row an observation goes to: its pod's, or a new one on its node. */
  method BookRow(rows: map<Key, PodUsage>, r: Reading, ghost hs: seq<Reading>) returns (row: PodUsage)
    requires RowsBooked(rows, hs)
    ensures row.namespace_ == r.namespace_ && row.name == r.pod && row.node == FirstNode(hs, r)
    ensures RowsBooked(rows[PodKey(r) := row], hs + [r.(node := row.node)])
  {
    var pk := PodKey(r);
    row := PodUsage(r.namespace_, r.pod, r.node, "Running", map[], []);
    OfNothing(hs, OfPod(r.namespace_, r.pod));
    if pk in rows {
      row := rows[pk];
      assert RowBooked(pk, row, hs);
      assert pk[0] == r.namespace_ && pk[1] == r.pod;
      assert [row.namespace_, row.name][0] == row.namespace_ && [row.namespace_, row.name][1] == row.name;
    } else {
      NoEntries(r.namespace_, r.pod, hs);
    }
    RowNode(rows, r, hs);
    var cs := AddToContainer(row.containers, r.(node := row.node), hs);
    row := row.(containers := cs, resources := Bump(row.resources, r.key, r.n));
    RowsStep(rows, r.(node := row.node), row, hs);
  }

  lemma RowNode(rows: map<Key, PodUsage>, r: Reading, hs: seq<Reading>)
    requires RowsBooked(rows, hs)
    ensures FirstNode(hs, r) == if PodKey(r) in rows then rows[PodKey(r)].node else r.node
  {
    var node := if PodKey(r) in rows then rows[PodKey(r)].node else r.node;
    forall a | a in hs && SamePod(a, r)
      ensures a.node == node
    {
      assert PodKey(a) == PodKey(r);
      assert OnRow(rows, a);
    }
    FirstNodeIs(hs, r, node);
    assert HasPod(hs, r) <==> Mentions(hs, OfPod(r.namespace_, r.pod)) by { PodMentioned(hs, r); }
  }

  lemma PodMentioned(hs: seq<Reading>, r: Reading)
    ensures HasPod(hs, r) <==> Mentions(hs, OfPod(r.namespace_, r.pod))
  {
    if HasPod(hs, r) {
      var u :| u in hs && SamePod(u, r);
      assert Picks(OfPod(r.namespace_, r.pod), u);
    }
    if Mentions(hs, OfPod(r.namespace_, r.pod)) {
      var u :| u in hs && Picks(OfPod(r.namespace_, r.pod), u);
      assert SamePod(u, r);
    }
  }

  lemma RowsStep(rows: map<Key, PodUsage>, h: Reading, row: PodUsage, hs: seq<Reading>)
    requires RowsBooked(rows, hs)
    requires row.namespace_ == h.namespace_ && row.name == h.pod && row.node == h.node && row.phase == "Running"
    requires PodKey(h) in rows ==> rows[PodKey(h)].node == h.node
    requires row.resources == Bump(Of(hs, OfPod(h.namespace_, h.pod)), h.key, h.n)
    requires Sum(ContainerTallies(row.containers)) == row.resources
    requires EntriesOk(row.containers, h.namespace_, h.pod, hs + [h])
    ensures RowsBooked(rows[PodKey(h) := row], hs + [h])
  {
    RowsKeep(rows, h, row, hs, rows[PodKey(h) := row]);
    forall ns, p
      ensures [ns, p] in rows[PodKey(h) := row] <==> Mentions(hs + [h], OfPod(ns, p))
    {
      RowMention(rows, h, row, hs, ns, p);
    }
    StayOnRows(rows, h, row, hs);
  }

  lemma RowsKeep(rows: map<Key, PodUsage>, h: Reading, row: PodUsage, hs: seq<Reading>, rs: map<Key, PodUsage>)
    requires rs == rows[PodKey(h) := row]
    requires forall k :: k in rows ==> RowBooked(k, rows[k], hs)
    requires row.namespace_ == h.namespace_ && row.name == h.pod && row.phase == "Running"
    requires row.resources == Bump(Of(hs, OfPod(h.namespace_, h.pod)), h.key, h.n)
    requires Sum(ContainerTallies(row.containers)) == row.resources
    requires EntriesOk(row.containers, h.namespace_, h.pod, hs + [h])
    ensures forall k :: k in rs ==> RowBooked(k, rs[k], hs + [h])
  {
    AppendReading(hs, h, OfPod(h.namespace_, h.pod));
    forall k | k in rows && k != PodKey(h)
      ensures RowBooked(k, rows[k], hs + [h])
    {
      assert RowBooked(k, rows[k], hs);
      AppendReading(hs, h, OfPod(rows[k].namespace_, rows[k].name));
      EntriesElsewhere(rows[k].containers, rows[k].namespace_, rows[k].name, h, hs);
    }
  }

  lemma StayOnRows(rows: map<Key, PodUsage>, h: Reading, row: PodUsage, hs: seq<Reading>)
    requires forall u :: u in hs ==> OnRow(rows, u)
    requires row.node == h.node && (PodKey(h) in rows ==> rows[PodKey(h)].node == h.node)
    ensures forall u :: u in hs + [h] ==> OnRow(rows[PodKey(h) := row], u)
  {
    forall u | u in hs
      ensures OnRow(rows[PodKey(h) := row], u)
    {
      assert OnRow(rows, u);
    }
  }

  lemma RowMention(rows: map<Key, PodUsage>, h: Reading, row: PodUsage, hs: seq<Reading>, ns: string, p: string)
    requires [ns, p] in rows <==> Mentions(hs, OfPod(ns, p))
    ensures [ns, p] in rows[PodKey(h) := row] <==> Mentions(hs + [h], OfPod(ns, p))
  {
    AppendReading(hs, h, OfPod(ns, p));
    assert [ns, p] == PodKey(h) <==> [ns, p][0] == PodKey(h)[0] && [ns, p][1] == PodKey(h)[1];
  }

  /** The per-node part of the loop body: the observation, already on its row's
      node, and whether its pod has been counted there. */
  method BookNode(perNode: map<string, Tally>, podsPerNode: map<string, nat>, h: Reading, counted: bool,
                  ghost hs: seq<Reading>)
    returns (perNode': map<string, Tally>, podsPerNode': map<string, nat>)
    requires NodesBooked(perNode, podsPerNode, hs)
    requires h.node != "" ==> (counted <==> (h.namespace_, h.pod) in PodSet(hs, h.node))
    ensures NodesBooked(perNode', podsPerNode', hs + [h])
  {
    perNode', podsPerNode' := perNode, podsPerNode;
    if h.node != "" {
      perNode' := perNode[h.node := Bump(NodeTally(perNode, h.node), h.key, h.n)];
      if !counted {
        podsPerNode' := podsPerNode[h.node := NodePods(podsPerNode, h.node) + 1];
      }
    }
    forall n
      ensures NodeTally(perNode', n) == (if n == "" then map[] else Of(hs + [h], OnNode(n)))
    {
      assert NodeTally(perNode, n) == (if n == "" then map[] else Of(hs, OnNode(n)));
      AppendReading(hs, h, OnNode(n));
    }
    forall n
      ensures NodePods(podsPerNode', n) == (if n == "" then 0 else |PodSet(hs + [h], n)|)
    {
      assert NodePods(podsPerNode, n) == (if n == "" then 0 else |PodSet(hs, n)|);
      AppendPod(hs, h, n);
      CountPod(PodSet(hs, n), (h.namespace_, h.pod));
    }
  }

  lemma CountPod(pods: set<(string, string)>, p: (string, string))
    ensures |pods + {p}| == |pods| + if p in pods then 0 else 1
  {
    if p in pods {
      assert pods + {p} == pods;
    }
  }

  lemma AppendPod(hs: seq<Reading>, h: Reading, n: string)
    ensures PodSet(hs + [h], n) == if h.node == n then PodSet(hs, n) + {(h.namespace_, h.pod)} else PodSet(hs, n)
  {
    PodSetConcat(hs, [h], n);
    if h.node == n {
      assert h in [h];
      assert PodSet([h], n) == {(h.namespace_, h.pod)};
    } else {
      assert PodSet([h], n) == {};
    }
  }

  /** A pod has been counted on its node once its row is scheduled. */
  lemma CountedIff(rows: map<Key, PodUsage>, hs: seq<Reading>, r: Reading, node: string)
    requires RowsBooked(rows, hs) && node == FirstNode(hs, r)
    ensures PodKey(r) in rows <==> (r.namespace_, r.pod) in PodSet(hs, node)
    ensures PodKey(r) in rows ==> rows[PodKey(r)].node == node
  {
    RowNode(rows, r, hs);
    PodMentioned(hs, r);
    if PodKey(r) in rows {
      var u :| u in hs && SamePod(u, r);
      assert OnRow(rows, u) && PodKey(u) == PodKey(r);
    }
    if (r.namespace_, r.pod) in PodSet(hs, node) {
      var u :| u in hs && u.node == node && (u.namespace_, u.pod) == (r.namespace_, r.pod);
      assert SamePod(u, r);
    }
  }

  /** One request sample, already read. */
  method Book(b: Books, r: Reading, ghost hs: seq<Reading>) returns (b': Books)
    requires Booked(b, hs)
    ensures Booked(b', hs + [r.(node := FirstNode(hs, r))])
  {
    var row := BookRow(b.rows, r, hs);
    var h := r.(node := row.node);
    var pk := PodKey(r);
    CountedIff(b.rows, hs, r, row.node);
    var perNode, podsPerNode := BookNode(b.perNode, b.podsPerNode, h, pk in b.seen, hs);
    AppendReading(hs, h, All);
    SeenStep(b.seen, b.rows, pk, row);
    b' := Books(b.rows[pk := row], Bump(b.used, r.key, r.n), perNode, podsPerNode,
                if row.node != "" then b.seen + {pk} else b.seen);
  }

  method CollectRequests(requests: seq<Sample>) returns (b: Books)
    ensures Booked(b, Homed(Readings(RequestQuery, requests)))
  {
    b := Books(map[], map[], map[], map[], {});
    for i := 0 to |requests|
      invariant Booked(b, Homed(Readings(RequestQuery, requests[..i])))
    {
      assert requests[..i + 1][..i] == requests[..i];
      ghost var before := Readings(RequestQuery, requests[..i]);
      var r := RequestReading(requests[i]);
      if r.None? {
        assert Readings(RequestQuery, requests[..i + 1]) == before;
        continue;
      }
      assert Readings(RequestQuery, requests[..i + 1]) == before + [r.value];
      assert (before + [r.value])[..|before|] == before;
      b := Book(b, r.value, Homed(before));
    }
    assert requests[..|requests|] == requests;
  }

  // ----- the report --------------------------------------------------------

  /** The map's rows, by namespace and name. */
  method ListRows(rows: map<Key, PodUsage>) returns (ks: seq<Key>, out: seq<PodUsage>)
    ensures Ascends(ks) && forall k :: k in ks <==> k in rows
    ensures |out| == |ks| && forall i :: 0 <= i < |out| ==> out[i] == rows[ks[i]]
  {
    ks := ListSet(rows.Keys);
    out := [];
    for i := 0 to |ks|
      invariant |out| == i
      invariant forall j :: 0 <= j < i ==> out[j] == rows[ks[j]]
    {
      out := out + [rows[ks[i]]];
    }
  }

  /** Every row is a running pod's, and its total is split over its containers. */
  ghost predicate SplitOk(rows: seq<PodUsage>, hs: seq<Reading>) {
    forall i :: 0 <= i < |rows| ==>
      rows[i].phase == "Running" && EntriesOk(rows[i].containers, rows[i].namespace_, rows[i].name, hs)
  }

  lemma ListedRows(rows: map<Key, PodUsage>, ks: seq<Key>, out: seq<PodUsage>, hs: seq<Reading>)
    requires RowsBooked(rows, hs) && Ascends(ks) && forall k :: k in ks <==> k in rows
    requires |out| == |ks| && forall i :: 0 <= i < |out| ==> out[i] == rows[ks[i]]
    ensures Ascends(PodKeys(out)) && (forall ns, p :: [ns, p] in PodKeys(out) <==> Mentions(hs, OfPod(ns, p)))
    ensures forall i :: 0 <= i < |out| ==> PodRowOk(out[i], hs)
    ensures SplitOk(out, hs)
  {
    forall i | 0 <= i < |out|
      ensures ks[i] == [out[i].namespace_, out[i].name] && PodRowOk(out[i], hs)
      ensures out[i].phase == "Running" && EntriesOk(out[i].containers, out[i].namespace_, out[i].name, hs)
    {
      RowShown(rows, ks[i], hs);
    }
    assert PodKeys(out) == ks;
    RowsMentioned(rows, ks, hs);
  }

  lemma RowsMentioned(rows: map<Key, PodUsage>, ks: seq<Key>, hs: seq<Reading>)
    requires forall ns, p :: [ns, p] in rows <==> Mentions(hs, OfPod(ns, p))
    requires forall k :: k in ks <==> k in rows
    ensures forall ns, p :: [ns, p] in ks <==> Mentions(hs, OfPod(ns, p))
  {
  }

  lemma RowShown(rows: map<Key, PodUsage>, k: Key, hs: seq<Reading>)
    requires RowsBooked(rows, hs) && k in rows
    ensures k == [rows[k].namespace_, rows[k].name] && PodRowOk(rows[k], hs)
    ensures rows[k].phase == "Running" && EntriesOk(rows[k].containers, rows[k].namespace_, rows[k].name, hs)
  {
    var row := rows[k];
    assert RowBooked(k, row, hs);
    assert [row.namespace_, row.name] in rows;
    var u :| u in hs && Picks(OfPod(row.namespace_, row.name), u);
    assert OnRow(rows, u) && PodKey(u) == k;
  }

  method ListNodeRows(nodes: map<string, Tally>, b: Books, ghost caps: seq<Reading>, ghost hs: seq<Reading>)
    returns (out: seq<NodeSummary>)
    requires Offered(nodes, caps) && NodesBooked(b.perNode, b.podsPerNode, hs) && "" !in nodes
    ensures Ascends(NodeKeys(out)) && (forall n :: [n] in NodeKeys(out) <==> Mentions(caps, OnNode(n)))
    ensures forall i :: 0 <= i < |out| ==> NodeRowOk(out[i], caps, hs)
  {
    var names := ListNames(nodes.Keys);
    out := [];
    for i := 0 to |names|
      invariant |out| == i
      invariant forall j :: 0 <= j < i ==> out[j].node == names[j] && NodeRowOk(out[j], caps, hs)
    {
      var n := names[i];
      assert n in names;
      var row := NodeSummary(n, nodes[n], NodeTally(b.perNode, n), NodePods(b.podsPerNode, n));
      assert NodeRowOk(row, caps, hs);
      out := out + [row];
    }
    NodesListed(names, out, caps);
  }

  lemma NodesListed(names: seq<string>, out: seq<NodeSummary>, caps: seq<Reading>)
    requires Ascends(Singles(names)) && forall n :: n in names <==> Mentions(caps, OnNode(n))
    requires |out| == |names| && forall j :: 0 <= j < |out| ==> out[j].node == names[j]
    ensures Ascends(NodeKeys(out)) && (forall n :: [n] in NodeKeys(out) <==> Mentions(caps, OnNode(n)))
  {
    assert NodeKeys(out) == Singles(names);
    forall n
      ensures [n] in NodeKeys(out) <==> Mentions(caps, OnNode(n))
    {
      SinglesMember(names, [n]);
    }
  }

  lemma {:induction false} NoBlanks(q: Query, ss: seq<Sample>)
    ensures forall u :: u in Readings(q, ss) ==> u.key != "" && (q.CapacityQuery? ==> u.node != "")
  {
    if ss != [] {
      NoBlanks(q, ss[..|ss| - 1]);
    }
  }

  lemma {:induction false} NoBlankKey(us: seq<Reading>)
    requires forall u :: u in us ==> u.key != ""
    ensures "" !in Of(us, All)
  {
    if us != [] {
      var front, u := us[..|us| - 1], us[|us| - 1];
      assert us == front + [u];
      NoBlankKey(front);
      assert u in us;
    }
  }

  lemma {:induction false} HomedKeys(us: seq<Reading>)
    requires forall u :: u in us ==> u.key != ""
    ensures forall u :: u in Homed(us) ==> u.key != ""
  {
    if us != [] {
      var front, u := us[..|us| - 1], us[|us| - 1];
      assert us == front + [u];
      HomedKeys(front);
      assert u in us;
    }
  }

  /** The conditions in the text of a query: a mangled key of three parts, and for
      requests the namespace, when one is asked for. */
  predicate Asks(q: Query, opts: Options, s: Sample) {
    MatchesQuery(Label(s, "resource"))
    && (q.RequestQuery? && opts.scope == "namespace" && opts.namespace_ != "" ==> Label(s, "namespace") == opts.namespace_)
  }

  /** The series a query selects. */
  function Selected(q: Query, opts: Options, series: seq<Sample>): seq<Sample> {
    if series == [] then []
    else
      var s := series[|series| - 1];
      Selected(q, opts, series[..|series| - 1]) + if Asks(q, opts, s) then [s] else []
  }

  /** What the report observes, out of all the series there are. */
  function Observed(q: Query, opts: Options, series: seq<Sample>): seq<Reading> {
    Readings(q, Selected(q, opts, series))
  }

  /** Both queries answered: the report on what the selected series observe. A
      query that fails ends in an error, an unconfigured upstream in an empty
      report. */
  method StatusFromMetrics(opts: Options, available: bool, capSeries: Result<seq<Sample>>, reqSeries: Result<seq<Sample>>)
    returns (out: Status, err: Option<string>)
    ensures !available ==> out == EmptyStatus(opts) && err.None?
    ensures available && (capSeries.Err? || reqSeries.Err?) ==> out == EmptyStatus(opts) && err.Some?
    ensures available && capSeries.Ok? && reqSeries.Ok? ==>
              var hs := Homed(Observed(RequestQuery, opts, reqSeries.value));
              err.None? && Reports(out, Observed(CapacityQuery, opts, capSeries.value), hs) && SplitOk(out.pods, hs)
    ensures out.scope == opts.scope && out.target == opts.namespace_
    ensures !available || err.Some? ==> out.vendors == [] && out.nodes == [] && out.pods == [] && out.summary == Counts(0, 0, 0)
  {
    out, err := EmptyStatus(opts), None;
    if !available {
      return;
    }
    if capSeries.Err? {
      return out, Some("query node capacity: " + capSeries.error);
    }
    if reqSeries.Err? {
      return out, Some("query pod requests: " + reqSeries.error);
    }
    var caps := Selected(CapacityQuery, opts, capSeries.value);
    var requests := Selected(RequestQuery, opts, reqSeries.value);
    var nodes, alloc := CollectCapacities(caps);
    var b := CollectRequests(requests);
    ghost var cs, hs := Readings(CapacityQuery, caps), Homed(Readings(RequestQuery, requests));
    NoBlanks(CapacityQuery, caps);
    NoBlanks(RequestQuery, requests);
    HomedKeys(Readings(RequestQuery, requests));
    NoBlankKey(cs);
    NoBlankKey(hs);
    var ks, rows := ListRows(b.rows);
    ListedRows(b.rows, ks, rows, hs);
    var nodeList := ListNodeRows(nodes, b, cs, hs);
    out := Headline(alloc, b.used, out.(nodes := nodeList, pods := rows));
  }

  // ----- series that describe the cluster ----------------------------------

  /** A sample exports an observation: the labels say which, the resource name
      mangled, and the value is the amount. Other labels do not matter. */
  predicate Shows(q: Query, s: Sample, r: Reading) {
    && Label(s, "resource") == Mangle(r.key) && Label(s, "node") == r.node && s.value == r.n as real
    && match q
       case CapacityQuery => r.namespace_ == "" && r.pod == "" && r.container == ""
       case RequestQuery =>
         Label(s, "namespace") == r.namespace_ && Label(s, "pod") == r.pod && Label(s, "container") == r.container
  }

  ghost predicate Exports(q: Query, ss: seq<Sample>, us: seq<Reading>) {
    |ss| == |us| && forall i :: 0 <= i < |ss| ==> Shows(q, ss[i], us[i])
  }

  /** The samples export exactly these observations, in any order. */
  ghost predicate Describes(q: Query, ss: seq<Sample>, us: seq<Reading>) {
    exists vs :: multiset(vs) == multiset(us) && Exports(q, ss, vs)
  }

  /** What the query's own conditions let through. */
  ghost predicate Exportable(q: Query, r: Reading) {
    Plain(r.key) && match q
                    case CapacityQuery => r.node != ""
                    case RequestQuery => r.namespace_ != "" && r.pod != ""
  }

  lemma ReadBack(q: Query, s: Sample, r: Reading)
    requires Shows(q, s, r) && Exportable(q, r)
    ensures ReadingOf(q, s) == Some(r)
  {
    PlainHasSlash(r.key);
    MangleRoundTrip(r.key);
    PlainIsAccelerator(r.key);
    TruncWhole(r.n);
  }

  lemma TruncWhole(n: int)
    ensures Trunc(n as real) == n
  {
    assert (n as real).Floor == n;
    assert -(n as real) == (-n) as real;
  }

  ghost predicate PlainKeys(t: Tally) {
    forall k :: k in t ==> Plain(k)
  }

  lemma {:induction false} OffersExportable(nodes: seq<Node>)
    requires forall i :: 0 <= i < |nodes| ==> nodes[i].name != "" && PlainKeys(Capacity(nodes[i]))
    ensures forall u :: u in NodeReadings(nodes) ==> Exportable(CapacityQuery, u)
  {
    if nodes != [] {
      var front, n := nodes[..|nodes| - 1], nodes[|nodes| - 1];
      OffersExportable(front);
      SpreadAll(Reading("", "", n.name, "", "", 0), Capacity(n), All);
    }
  }

  ghost predicate PlainPods(pods: seq<Pod>) {
    forall i, j :: 0 <= i < |pods| && 0 <= j < |pods[i].containers| ==> PlainKeys(Effective(pods[i].containers[j]))
  }

  lemma {:induction false} ContainersExportable(p: Pod, cs: seq<Container>)
    requires p.namespace_ != "" && p.name != "" && forall j :: 0 <= j < |cs| ==> PlainKeys(Effective(cs[j]))
    ensures forall u :: u in ContainerReadings(p, cs) ==> Exportable(RequestQuery, u)
  {
    if cs != [] {
      var front, c := cs[..|cs| - 1], cs[|cs| - 1];
      ContainersExportable(p, front);
      SpreadAll(Reading(p.namespace_, p.name, p.node, c.name, "", 0), Effective(c), All);
    }
  }

  lemma {:induction false} PodsExportable(pods: seq<Pod>)
    requires DistinctPods(pods) && PlainPods(pods)
    ensures forall u :: u in ClusterReadings(pods) ==> Exportable(RequestQuery, u)
  {
    if pods != [] {
      var front, p := pods[..|pods| - 1], pods[|pods| - 1];
      PodsExportable(front);
      ContainersExportable(p, p.containers);
    }
  }

  // ----- what the queries let through --------------------------------------

  predicate AsksFor(q: Query, opts: Options, r: Reading) {
    MatchesQuery(Mangle(r.key))
    && (q.RequestQuery? && opts.scope == "namespace" && opts.namespace_ != "" ==> r.namespace_ == opts.namespace_)
  }

  function Kept(q: Query, opts: Options, us: seq<Reading>): seq<Reading> {
    if us == [] then []
    else
      var u := us[|us| - 1];
      Kept(q, opts, us[..|us| - 1]) + if AsksFor(q, opts, u) then [u] else []
  }

  /** Selecting series is selecting the observations they export. */
  lemma {:induction false} SelectedAreKept(q: Query, opts: Options, ss: seq<Sample>, us: seq<Reading>)
    requires Exports(q, ss, us) && forall u :: u in us ==> Exportable(q, u)
    ensures Observed(q, opts, ss) == Kept(q, opts, us)
  {
    if ss != [] {
      var front, u := us[..|us| - 1], us[|us| - 1];
      var older, s := ss[..|ss| - 1], ss[|ss| - 1];
      assert us == front + [u];
      assert u in us;
      SelectedAreKept(q, opts, older, front);
      AskedAlike(q, opts, s, u);
      if Asks(q, opts, s) {
        ReadBack(q, s, u);
        ReadingsAppend(q, Selected(q, opts, older), s);
      } else {
        assert Selected(q, opts, older) + [] == Selected(q, opts, older);
        assert Kept(q, opts, front) + [] == Kept(q, opts, front);
      }
    }
  }

  lemma AskedAlike(q: Query, opts: Options, s: Sample, u: Reading)
    requires Shows(q, s, u)
    ensures Asks(q, opts, s) <==> AsksFor(q, opts, u)
  {
  }

  lemma ReadingsAppend(q: Query, ss: seq<Sample>, s: Sample)
    ensures Readings(q, ss + [s])
            == Readings(q, ss) + if ReadingOf(q, s).Some? then [ReadingOf(q, s).value] else []
  {
    assert (ss + [s])[..|ss|] == ss;
  }

  lemma {:induction false} KeptConcat(q: Query, opts: Options, a: seq<Reading>, b: seq<Reading>)
    ensures Kept(q, opts, a + b) == Kept(q, opts, a) + Kept(q, opts, b)
  {
    if b == [] {
      assert a + b == a;
      AppendAssoc(Kept(q, opts, a), [], []);
    } else {
      var c, u := b[..|b| - 1], b[|b| - 1];
      assert (a + b)[..|a + b| - 1] == a + c;
      KeptConcat(q, opts, a, c);
      AppendAssoc(Kept(q, opts, a), Kept(q, opts, c), if AsksFor(q, opts, u) then [u] else []);
    }
  }

  lemma {:induction false} KeptPermutes(q: Query, opts: Options, a: seq<Reading>, b: seq<Reading>)
    requires multiset(a) == multiset(b)
    ensures multiset(Kept(q, opts, a)) == multiset(Kept(q, opts, b))
    decreases |a|
  {
    assert |a| == |multiset(a)| && |b| == |multiset(b)|;
    if a != [] {
      var u := a[|a| - 1];
      var j := FindLast(a, b);
      var l, r := b[..j], b[j + 1..];
      KeptPermutes(q, opts, a[..|a| - 1], l + r);
      KeptConcat(q, opts, l, r);
      KeptAround(q, opts, l, u, r);
      MovedLast(Kept(q, opts, l), if AsksFor(q, opts, u) then [u] else [], Kept(q, opts, r));
    }
  }

  lemma KeptAround(q: Query, opts: Options, l: seq<Reading>, u: Reading, r: seq<Reading>)
    ensures Kept(q, opts, l + ([u] + r))
            == Kept(q, opts, l) + ((if AsksFor(q, opts, u) then [u] else []) + Kept(q, opts, r))
  {
    KeptConcat(q, opts, l, [u] + r);
    KeptConcat(q, opts, [u], r);
    KeptOne(q, opts, u);
  }

  lemma MovedLast<T>(l: seq<T>, k: seq<T>, r: seq<T>)
    ensures multiset(l + (k + r)) == multiset((l + r) + k)
  {
  }

  lemma KeptOne(q: Query, opts: Options, u: Reading)
    ensures Kept(q, opts, [u]) == if AsksFor(q, opts, u) then [u] else []
  {
    assert [u][..0] == [];
    assert Kept(q, opts, []) == [];
  }

  lemma {:induction false} KeptAll(q: Query, opts: Options, us: seq<Reading>)
    requires forall u :: u in us ==> AsksFor(q, opts, u)
    ensures Kept(q, opts, us) == us
  {
    if us != [] {
      var front, u := us[..|us| - 1], us[|us| - 1];
      assert us == front + [u];
      KeptAll(q, opts, front);
      assert u in us;
    }
  }

  lemma {:induction false} KeptNone(q: Query, opts: Options, us: seq<Reading>)
    requires forall u :: u in us ==> !AsksFor(q, opts, u)
    ensures Kept(q, opts, us) == []
  {
    if us != [] {
      var front, u := us[..|us| - 1], us[|us| - 1];
      assert us == front + [u];
      KeptNone(q, opts, front);
      assert u in us;
    }
  }

  lemma {:induction false} KeptIsAsked(q: Query, opts: Options, us: seq<Reading>)
    ensures forall u :: u in Kept(q, opts, us) ==> AsksFor(q, opts, u)
  {
    if us != [] {
      KeptIsAsked(q, opts, us[..|us| - 1]);
    }
  }

  // ----- keys --------------------------------------------------------------

  ghost predicate HasKey(us: seq<Reading>, k: string) {
    exists u :: u in us && u.key == k
  }

  lemma {:induction false} KeysOfTally(us: seq<Reading>, k: string)
    ensures k in Of(us, All) <==> HasKey(us, k)
  {
    if us != [] {
      var front, u := us[..|us| - 1], us[|us| - 1];
      assert us == front + [u];
      KeysOfTally(front, k);
      assert u in us;
      if HasKey(us, k) && u.key != k {
        var x :| x in us && x.key == k;
        assert x in front;
      }
      if HasKey(front, k) {
        var x :| x in front && x.key == k;
        assert x in us;
      }
    }
  }

  lemma {:induction false} HomedHasKey(us: seq<Reading>, k: string)
    ensures HasKey(Homed(us), k) <==> HasKey(us, k)
  {
    KeysOfTally(us, k);
    KeysOfTally(Homed(us), k);
    HomedTally(us);
  }

  lemma {:induction false} HomedTally(us: seq<Reading>)
    ensures Of(Homed(us), All) == Of(us, All)
  {
    if us != [] {
      var front, r := us[..|us| - 1], us[|us| - 1];
      HomedTally(front);
      AppendReading(Homed(front), r.(node := FirstNode(Homed(front), r)), All);
    }
  }

  // ----- the pods in scope -------------------------------------------------

  predicate PodInScope(opts: Options, p: Pod) {
    opts.scope == "namespace" && opts.namespace_ != "" ==> p.namespace_ == opts.namespace_
  }

  /** The pods the request query is about. */
  function InScope(opts: Options, pods: seq<Pod>): seq<Pod> {
    if pods == [] then []
    else
      var p := pods[|pods| - 1];
      InScope(opts, pods[..|pods| - 1]) + if PodInScope(opts, p) then [p] else []
  }

  lemma {:induction false} InScopeKeeps(opts: Options, pods: seq<Pod>)
    requires DistinctPods(pods)
    ensures DistinctPods(InScope(opts, pods))
    ensures forall p :: p in InScope(opts, pods) ==> p in pods
  {
    if pods != [] {
      var front, p := pods[..|pods| - 1], pods[|pods| - 1];
      assert pods == front + [p];
      InScopeKeeps(opts, front);
      var kept := InScope(opts, front);
      forall i | 0 <= i < |kept|
        ensures kept[i].namespace_ != p.namespace_ || kept[i].name != p.name
      {
        assert kept[i] in front;
        var j :| 0 <= j < |front| && front[j] == kept[i];
        assert pods[j] == front[j];
      }
    }
  }

  ghost predicate AllQueried(us: seq<Reading>) {
    forall u :: u in us ==> MatchesQuery(Mangle(u.key))
  }

  /** With keys the query matches, what it keeps of the cluster's observations are
      those of the pods in scope. */
  lemma {:induction false} KeptInScope(opts: Options, pods: seq<Pod>)
    requires AllQueried(ClusterReadings(InScope(opts, pods)))
    ensures Kept(RequestQuery, opts, ClusterReadings(pods)) == ClusterReadings(InScope(opts, pods))
  {
    if pods != [] {
      var front, p := pods[..|pods| - 1], pods[|pods| - 1];
      LastInScope(opts, front, p);
      assert pods == front + [p];
      var mine := if Terminated(p) then [] else ContainerReadings(p, p.containers);
      assert ClusterReadings(pods) == ClusterReadings(front) + mine;
      KeptInScope(opts, front);
      KeptConcat(RequestQuery, opts, ClusterReadings(front), mine);
      KeptOfPod(opts, p, mine);
      AppendAssoc(ClusterReadings(InScope(opts, front)), [], []);
    }
  }

  lemma KeptOfPod(opts: Options, p: Pod, mine: seq<Reading>)
    requires mine == (if Terminated(p) then [] else ContainerReadings(p, p.containers))
    requires PodInScope(opts, p) ==> AllQueried(mine)
    ensures Kept(RequestQuery, opts, mine) == if PodInScope(opts, p) then mine else []
  {
    ContainerReadingsAre(p, p.containers, All);
    if PodInScope(opts, p) {
      KeptAll(RequestQuery, opts, mine);
    } else {
      KeptNone(RequestQuery, opts, mine);
    }
  }

  lemma LastInScope(opts: Options, front: seq<Pod>, p: Pod)
    ensures var mine := if Terminated(p) then [] else ContainerReadings(p, p.containers);
            ClusterReadings(InScope(opts, front + [p]))
            == ClusterReadings(InScope(opts, front)) + if PodInScope(opts, p) then mine else []
  {
    assert (front + [p])[..|front|] == front;
    var kept := InScope(opts, front);
    assert (kept + [p])[..|kept|] == kept;
    assert kept + [] == kept;
  }

  // ----- agreement of the two sources --------------------------------------

  ghost predicate Agree(a: Status, b: Status) {
    a.vendors == b.vendors && a.summary == b.summary && a.nodes == b.nodes && PodTotals(a.pods) == PodTotals(b.pods)
  }

  /** Every key offered by the nodes or used by the pods passes the regular
      expression of the queries; by QueriedIff, its group has a dot inside. */
  ghost predicate KeysQueried(nodes: seq<Node>, pods: seq<Pod>) {
    forall k :: k in Sum(Capacities(nodes)) || k in Sum(LiveAmounts(pods)) ==> MatchesQuery(Mangle(k))
  }

  lemma DescribedAreObserved(q: Query, opts: Options, ss: seq<Sample>, us: seq<Reading>)
    requires Describes(q, ss, us) && forall u :: u in us ==> Exportable(q, u)
    ensures multiset(Observed(q, opts, ss)) == multiset(Kept(q, opts, us))
  {
    var vs :| multiset(vs) == multiset(us) && Exports(q, ss, vs);
    SameMembers(vs, us);
    SelectedAreKept(q, opts, ss, vs);
    KeptPermutes(q, opts, vs, us);
  }

  lemma SameSettled(us: seq<Reading>, vs: seq<Reading>)
    requires Settled(us) && multiset(vs) == multiset(us)
    ensures Settled(vs)
  {
    SameMembers(vs, us);
  }

  lemma QueriedReadings(nodes: seq<Node>, pods: seq<Pod>)
    ensures KeysQueried(nodes, pods) <==> AllQueried(NodeReadings(nodes)) && AllQueried(ClusterReadings(pods))
  {
    var cs, us := NodeReadings(nodes), ClusterReadings(pods);
    OffersAreCapacities(nodes);
    ReadingsAreRows(pods, All);
    UsageIsContainers(pods);
    if KeysQueried(nodes, pods) {
      forall u | u in cs
        ensures MatchesQuery(Mangle(u.key))
      {
        KeysOfTally(cs, u.key);
      }
      forall u | u in us
        ensures MatchesQuery(Mangle(u.key))
      {
        KeysOfTally(us, u.key);
      }
    }
    if AllQueried(cs) && AllQueried(us) {
      forall k | k in Sum(Capacities(nodes)) || k in Sum(LiveAmounts(pods))
        ensures MatchesQuery(Mangle(k))
      {
        KeysOfTally(cs, k);
        KeysOfTally(us, k);
      }
    }
  }

  /** The series describe the very nodes and live pods the apiserver lists, with
      accelerator keys on the documented grammar. Then the two reports agree on
      the vendors, the summary, every node's capacity, use and pod count, and
      every pod's total, in whatever orders series, nodes and pods come, exactly
      when the queries' regular expression matches every key involved. */
  lemma TwoSourcesAgree(a: Status, b: Status, opts: Options, nodes: seq<Node>, pods: seq<Pod>, capSeries: seq<Sample>,
                        reqSeries: seq<Sample>)
    requires ReportsOn(a, nodes, InScope(opts, pods))
    requires Reports(b, Observed(CapacityQuery, opts, capSeries), Homed(Observed(RequestQuery, opts, reqSeries)))
    requires DistinctNodes(nodes) && DistinctPods(pods)
    requires PlainPods(pods) && forall i :: 0 <= i < |nodes| ==> PlainKeys(Capacity(nodes[i]))
    requires Describes(CapacityQuery, capSeries, NodeReadings(nodes))
    requires Describes(RequestQuery, reqSeries, ClusterReadings(pods))
    ensures Agree(a, b) <==> KeysQueried(nodes, InScope(opts, pods))
  {
    OffersExportable(nodes);
    PodsExportable(pods);
    DescribedAreObserved(CapacityQuery, opts, capSeries, NodeReadings(nodes));
    DescribedAreObserved(RequestQuery, opts, reqSeries, ClusterReadings(pods));
    InScopeKeeps(opts, pods);
    QueriedReadings(nodes, InScope(opts, pods));
    if KeysQueried(nodes, InScope(opts, pods)) {
      AgreeIfQueried(a, b, opts, nodes, pods, Observed(CapacityQuery, opts, capSeries),
                     Observed(RequestQuery, opts, reqSeries));
    }
    if Agree(a, b) {
      QueriedIfAgree(a, b, opts, nodes, pods, Observed(CapacityQuery, opts, capSeries),
                     Observed(RequestQuery, opts, reqSeries));
    }
  }

  lemma AgreeIfQueried(a: Status, b: Status, opts: Options, nodes: seq<Node>, pods: seq<Pod>, vc: seq<Reading>,
                       vu: seq<Reading>)
    requires ReportsOn(a, nodes, InScope(opts, pods)) && Reports(b, vc, Homed(vu))
    requires DistinctNodes(nodes) && DistinctPods(InScope(opts, pods))
    requires AllQueried(NodeReadings(nodes)) && AllQueried(ClusterReadings(InScope(opts, pods)))
    requires multiset(vc) == multiset(Kept(CapacityQuery, opts, NodeReadings(nodes)))
    requires multiset(vu) == multiset(Kept(RequestQuery, opts, ClusterReadings(pods)))
    ensures Agree(a, b)
  {
    var cs, us := NodeReadings(nodes), ClusterReadings(InScope(opts, pods));
    KeptAll(CapacityQuery, opts, cs);
    KeptInScope(opts, pods);
    ClusterIsSettled(InScope(opts, pods));
    SameSettled(us, vu);
    SettledIsHomed(vu);
    ClusterReports(a, nodes, InScope(opts, pods));
    ReportsAgree(a, b, cs, vc, us, vu);
  }

  lemma QueriedIfAgree(a: Status, b: Status, opts: Options, nodes: seq<Node>, pods: seq<Pod>, vc: seq<Reading>,
                       vu: seq<Reading>)
    requires ReportsOn(a, nodes, InScope(opts, pods)) && Reports(b, vc, Homed(vu)) && a.vendors == b.vendors
    requires multiset(vc) == multiset(Kept(CapacityQuery, opts, NodeReadings(nodes)))
    requires multiset(vu) == multiset(Kept(RequestQuery, opts, ClusterReadings(pods)))
    ensures KeysQueried(nodes, InScope(opts, pods))
  {
    KeptIsAsked(CapacityQuery, opts, NodeReadings(nodes));
    KeptIsAsked(RequestQuery, opts, ClusterReadings(pods));
    SameMembers(vc, Kept(CapacityQuery, opts, NodeReadings(nodes)));
    SameMembers(vu, Kept(RequestQuery, opts, ClusterReadings(pods)));
    forall k | k in Sum(Capacities(nodes)) || k in Sum(LiveAmounts(InScope(opts, pods)))
      ensures MatchesQuery(Mangle(k))
    {
      EachKeyOnce(a, nodes, InScope(opts, pods), k);
      KeysAreListed(b, Of(vc, All), Of(Homed(vu), All), k);
      KeysOfTally(vc, k);
      KeysOfTally(Homed(vu), k);
      HomedHasKey(vu, k);
    }
  }
}
