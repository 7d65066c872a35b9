/** What the status report lists: whose pods and nodes it sees, which of them have
    a row and in what order, and what the rows add up, one object at a time. */
module GpuListed {
  import opened Text
  import opened Order
  import opened GpuKeys
  import opened GpuTally
  import opened GpuVendors
  import opened GpuStatus
  import opened GpuReadings

  // ----- accelerator keys --------------------------------------------------

  /** A resource key of some group, but for three prefixes. */
  predicate IsAccelerator(k: string) {
    '/' in k && !("hugepages-" <= k) && !("attachable-volumes-" <= k) && !("storage-" <= k)
  }

  lemma AcceleratorIff(k: string)
    ensures IsAcceleratorKey(k) <==> IsAccelerator(k)
  {
    assert '/' !in "cpu" && '/' !in "memory" && '/' !in "pods" && '/' !in "ephemeral-storage";
  }

  /** A container asks for what it requests, and where it requests nothing of a
      key, for its limit; a node offers what it can allocate. */
  lemma AmountsAre(c: Container, n: Node, k: string)
    ensures k in Effective(c) <==> IsAccelerator(k) && (k in c.requests || k in c.limits)
    ensures k in Effective(c) ==> Effective(c)[k] == if k in c.requests then c.requests[k] else c.limits[k]
    ensures k in Capacity(n) <==> IsAccelerator(k) && k in n.allocatable
    ensures k in Capacity(n) ==> Capacity(n)[k] == n.allocatable[k]
  {
    AcceleratorIff(k);
  }

  // ----- whose pods and nodes ----------------------------------------------

  /** Nodes are for administrators; pods of the whole cluster too, and anybody
      else sees those of the namespace named, if any is. What can not be listed
      reads as empty. */
  lemma SeenByWhom(opts: Options, l: Listings)
    ensures NodesSeen(opts, l) == if opts.isAdmin && l.nodes.Ok? then l.nodes.value else []
    ensures opts.isAdmin && opts.scope == "cluster" ==> PodsSeen(opts, l) == if l.all.Ok? then l.all.value else []
    ensures !(opts.isAdmin && opts.scope == "cluster") && opts.namespace_ != "" ==>
              PodsSeen(opts, l) == if l.namespaced.Ok? then l.namespaced.value else []
    ensures !(opts.isAdmin && opts.scope == "cluster") && opts.namespace_ == "" ==> PodsSeen(opts, l) == []
  {
  }

  // ----- one object more ---------------------------------------------------

  lemma {:induction false} UsageRowsConcat(a: seq<Container>, b: seq<Container>)
    ensures UsageRows(a + b) == UsageRows(a) + UsageRows(b)
  {
    if b == [] {
      assert a + b == a;
    } else {
      var front := b[..|b| - 1];
      assert (a + b)[..|a + b| - 1] == a + front;
      UsageRowsConcat(a, front);
    }
  }

  lemma {:induction false} EffectivesConcat(a: seq<Container>, b: seq<Container>)
    ensures Effectives(a + b) == Effectives(a) + Effectives(b)
  {
    if b == [] {
      assert a + b == a;
    } else {
      var front := b[..|b| - 1];
      assert (a + b)[..|a + b| - 1] == a + front;
      EffectivesConcat(a, front);
    }
  }

  lemma OneOfThem(c: Container)
    ensures UsageRows([c]) == if Effective(c) == map[] then [] else [ContainerUsage(c.name, Effective(c))]
    ensures Effectives([c]) == [Effective(c)] && Sum([Effective(c)]) == Effective(c)
  {
    assert [c][..0] == [] && [Effective(c)][..0] == [];
    assert UsageRows([]) == [] && Effectives([]) == [];
    PlusLaws(Effective(c), map[], map[]);
  }

  /** A pod's row shows what its containers ask for in all, and each container
      that asks for something. */
  lemma OneContainer(before: seq<Container>, c: Container, after: seq<Container>)
    ensures UsageRows(before + [c] + after)
            == UsageRows(before) + (if Effective(c) == map[] then [] else [ContainerUsage(c.name, Effective(c))])
               + UsageRows(after)
    ensures Sum(Effectives(before + [c] + after))
            == Plus(Plus(Sum(Effectives(before)), Effective(c)), Sum(Effectives(after)))
    ensures UsageRows([]) == [] && Sum(Effectives([])) == map[]
  {
    OneOfThem(c);
    UsageRowsConcat(before, [c]);
    UsageRowsConcat(before + [c], after);
    EffectivesConcat(before, [c]);
    EffectivesConcat(before + [c], after);
    SumConcat(Effectives(before), [Effective(c)]);
    SumConcat(Effectives(before + [c]), Effectives(after));
  }

  lemma {:induction false} PodsConcat(a: seq<Pod>, b: seq<Pod>)
    ensures Rows(a + b) == Rows(a) + Rows(b)
  {
    if b == [] {
      assert a + b == a;
    } else {
      var front := b[..|b| - 1];
      assert (a + b)[..|a + b| - 1] == a + front;
      PodsConcat(a, front);
    }
  }

  /** The rows of one pod. */
  function RowsOfPod(p: Pod): seq<PodUsage> {
    var resources := Sum(Effectives(p.containers));
    if p.phase == "Succeeded" || p.phase == "Failed" || resources == map[] then []
    else [PodUsage(p.namespace_, p.name, p.node, p.phase, resources, UsageRows(p.containers))]
  }

  /** A pod has one row, unless it has ended or asks for no accelerators. */
  lemma OnePod(before: seq<Pod>, p: Pod, after: seq<Pod>)
    ensures Rows(before + [p] + after) == Rows(before) + RowsOfPod(p) + Rows(after)
    ensures Rows([]) == []
  {
    RowsStep([p], 0);
    assert [p][..0] == [] && [p][..1] == [p];
    PodsConcat(before, [p]);
    PodsConcat(before + [p], after);
  }

  /** A row adds to the usage of its node and to the pods counted there, and of no
      other node; every row adds to the usage of the cluster. */
  lemma OneRow(rows: seq<PodUsage>, row: PodUsage, node: string)
    ensures RowTally(rows + [row], All) == Plus(RowTally(rows, All), row.resources)
    ensures RowTally(rows + [row], OnNode(node))
            == if row.node == node then Plus(RowTally(rows, OnNode(node)), row.resources) else RowTally(rows, OnNode(node))
    ensures RowCount(rows + [row], node) == RowCount(rows, node) + if row.node == node then 1 else 0
    ensures RowTally([], All) == RowTally([], OnNode(node)) == map[] && RowCount([], node) == 0
  {
    RowsAppend(rows, row, All, node);
    RowsAppend(rows, row, OnNode(node), node);
  }

  /** A node has a row if it offers accelerators: what it offers, what the pod rows
      use on it, and how many there are. Every node adds to the total. */
  lemma OneNode(nodes: seq<Node>, n: Node, rows: seq<PodUsage>)
    requires n.name != ""
    ensures NodeRows(nodes + [n], rows)
            == NodeRows(nodes, rows)
               + (if Capacity(n) == map[] then []
                  else [NodeSummary(n.name, Capacity(n), RowTally(rows, OnNode(n.name)), RowCount(rows, n.name))])
    ensures Sum(Capacities(nodes + [n])) == Plus(Sum(Capacities(nodes)), Capacity(n))
    ensures NodeRows([], rows) == [] && Sum(Capacities([])) == map[]
  {
    assert (nodes + [n])[..|nodes|] == nodes;
    CapacitiesSize(nodes + [n]);
    CapacitiesSize(nodes);
    assert Capacities(nodes + [n])[..|nodes|] == Capacities(nodes);
  }

  /** Adding tallies adds the amounts of every key. */
  lemma AmountsAdd(a: Tally, b: Tally, k: string)
    ensures k in Plus(a, b) <==> k in a || k in b
    ensures k in Plus(a, b) ==> Plus(a, b)[k] == (if k in a then a[k] else 0) + (if k in b then b[k] else 0)
  {
  }

  // ----- the order of the rows ---------------------------------------------

  /** The usual order of strings. */
  ghost predicate Precedes(a: string, b: string) {
    a < b || exists i :: 0 <= i < |a| && i < |b| && a[..i] == b[..i] && a[i] < b[i]
  }

  lemma {:induction false} StrLessIs(a: string, b: string)
    ensures StrLess(a, b) <==> Precedes(a, b)
  {
    if a != "" && b != "" {
      StrLessIs(a[1..], b[1..]);
      if a[0] == b[0] {
        PrecedesTail(a, b);
      } else {
        assert a[..0] == b[..0];
        forall i | 0 < i < |a| && i < |b|
          ensures a[..i] != b[..i]
        {
          assert a[..i][0] == a[0] && b[..i][0] == b[0];
        }
      }
    }
  }

  lemma PrecedesTail(a: string, b: string)
    requires a != "" && b != "" && a[0] == b[0]
    ensures Precedes(a, b) <==> Precedes(a[1..], b[1..])
  {
    var c, d := a[1..], b[1..];
    forall i | 0 <= i <= |c| && i <= |d|
      ensures c[..i] == d[..i] <==> a[..i + 1] == b[..i + 1]
    {
      assert a[..i + 1] == [a[0]] + c[..i] && b[..i + 1] == [b[0]] + d[..i];
      assert a[..i + 1][1..] == c[..i] && b[..i + 1][1..] == d[..i];
    }
    assert a < b <==> c < d by {
      assert a == [a[0]] + c && b == [b[0]] + d;
    }
    if Precedes(c, d) && !(c < d) {
      var i :| 0 <= i < |c| && i < |d| && c[..i] == d[..i] && c[i] < d[i];
      assert a[i + 1] < b[i + 1] && a[..i + 1] == b[..i + 1];
    }
    if Precedes(a, b) && !(a < b) {
      var i :| 0 <= i < |a| && i < |b| && a[..i] == b[..i] && a[i] < b[i];
      assert i > 0;
      assert c[i - 1] < d[i - 1] && c[..i - 1] == d[..i - 1];
    }
  }

  lemma PairLess(a: string, b: string, c: string, d: string)
    ensures Less([a, b], [c, d]) <==> Precedes(a, c) || (a == c && Precedes(b, d))
    ensures Less([a], [c]) <==> Precedes(a, c)
  {
    StrLessIs(a, c);
    StrLessIs(b, d);
    assert [a, b][1..] == [b] && [c, d][1..] == [d] && [b][1..] == [] && [d][1..] == [] && [a][1..] == [] && [c][1..] == [];
    assert Less([b], [d]) <==> StrLess(b, d);
  }

  /** The report's pods are the rows, each once, by namespace and then by name. */
  lemma PodsAreListed(out: Status, nodes: seq<Node>, pods: seq<Pod>)
    requires ReportsOn(out, nodes, pods) && DistinctPods(pods)
    ensures |out.pods| == |Rows(pods)| && forall row :: row in out.pods <==> row in Rows(pods)
    ensures forall i, j :: 0 <= i < j < |out.pods| ==>
              var (a, b) := (out.pods[i], out.pods[j]);
              Precedes(a.namespace_, b.namespace_) || (a.namespace_ == b.namespace_ && Precedes(a.name, b.name))
  {
    var rows := Rows(pods);
    SameRows(ByName(rows), rows);
    PodsReport(pods);
    forall i, j | 0 <= i < j < |out.pods|
      ensures var (a, b) := (out.pods[i], out.pods[j]);
              Precedes(a.namespace_, b.namespace_) || (a.namespace_ == b.namespace_ && Precedes(a.name, b.name))
    {
      var a, b := out.pods[i], out.pods[j];
      assert Less(PodKeys(out.pods)[i], PodKeys(out.pods)[j]);
      PairLess(a.namespace_, a.name, b.namespace_, b.name);
    }
  }

  /** And its nodes are the nodes' rows, each once, by name. */
  lemma NodesAreListed(out: Status, nodes: seq<Node>, pods: seq<Pod>)
    requires ReportsOn(out, nodes, pods) && DistinctPods(pods) && DistinctNodes(nodes)
    ensures var rows := NodeRows(nodes, Rows(pods));
            |out.nodes| == |rows| && forall row :: row in out.nodes <==> row in rows
    ensures forall i, j :: 0 <= i < j < |out.nodes| ==> Precedes(out.nodes[i].node, out.nodes[j].node)
  {
    var rows := NodeRows(nodes, Rows(pods));
    SameRows(ByNode(rows), rows);
    NodesReport(nodes, pods);
    forall i, j | 0 <= i < j < |out.nodes|
      ensures Precedes(out.nodes[i].node, out.nodes[j].node)
    {
      assert Less(NodeKeys(out.nodes)[i], NodeKeys(out.nodes)[j]);
      PairLess(out.nodes[i].node, "", out.nodes[j].node, "");
    }
  }

  /** Sorting keyed rows keeps the rows. */
  lemma SameRows<T>(xs: seq<Keyed<T>>, rows: seq<T>)
    requires |xs| == |rows| && forall i :: 0 <= i < |xs| ==> xs[i].item == rows[i]
    ensures var out := Items(Sort(xs));
            |out| == |rows| && forall row :: row in out <==> row in rows
  {
    var sorted := Sort(xs);
    var out := Items(sorted);
    SortKeeps(xs);
    assert |multiset(sorted)| == |sorted| && |multiset(xs)| == |xs|;
    forall row
      ensures row in out <==> row in rows
    {
      if row in out {
        var i :| 0 <= i < |out| && out[i] == row;
        SortMember(xs, sorted[i]);
        var j :| 0 <= j < |xs| && xs[j] == sorted[i];
        assert rows[j] == row;
      }
      if row in rows {
        var j :| 0 <= j < |rows| && rows[j] == row;
        SortMember(xs, xs[j]);
        var i :| 0 <= i < |sorted| && sorted[i] == xs[j];
        assert out[i] == row;
      }
    }
  }
}
