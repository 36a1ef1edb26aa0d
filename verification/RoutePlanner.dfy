/** The shortest-path search of simulator.py: a lazy-deletion Dijkstra whose heap entries carry whole
    paths. The heap is a multiset from which some least entry is taken; entries that differ only in
    their edges are tied, and every way of breaking that tie is covered. */
module RoutePlanner {
  import opened Domain

  datatype Entry = Entry(distance: real, node: Id, path: seq<Id>, edges: seq<Edge>)

  // ---- The order of heap entries ----

  /** The order of Python lists. */
  predicate LexLe(a: seq<Id>, b: seq<Id>) {
    a == [] || (b != [] && (a[0] < b[0] || (a[0] == b[0] && LexLe(a[1..], b[1..]))))
  }

  predicate EntryLe(e: Entry, f: Entry) {
    e.distance < f.distance
    || (e.distance == f.distance && (e.node < f.node || (e.node == f.node && LexLe(e.path, f.path))))
  }

  lemma {:induction false} LexTotal(a: seq<Id>, b: seq<Id>)
    ensures LexLe(a, b) || LexLe(b, a)
  {
    if a != [] && b != [] {
      LexTotal(a[1..], b[1..]);
    }
  }

  lemma {:induction false} LexTransitive(a: seq<Id>, b: seq<Id>, c: seq<Id>)
    requires LexLe(a, b) && LexLe(b, c)
    ensures LexLe(a, c)
  {
    if a != [] && b != [] && c != [] && a[0] == b[0] == c[0] {
      LexTransitive(a[1..], b[1..], c[1..]);
    }
  }

  lemma {:induction false} LexAntisymmetric(a: seq<Id>, b: seq<Id>)
    requires LexLe(a, b) && LexLe(b, a)
    ensures a == b
  {
    if a != [] {
      LexAntisymmetric(a[1..], b[1..]);
      assert a == [a[0]] + a[1..] && b == [b[0]] + b[1..];
    }
  }

  /** `a` is a proper prefix of `b` or the smaller at the first place where they differ, or they are equal. */
  ghost predicate FirstInOrder(a: seq<Id>, b: seq<Id>) {
    a <= b || exists k :: 0 <= k < |a| && k < |b| && a[..k] == b[..k] && a[k] < b[k]
  }

  lemma {:induction false} LexMeans(a: seq<Id>, b: seq<Id>)
    ensures LexLe(a, b) <==> FirstInOrder(a, b)
  {
    if a != [] && b != [] {
      LexMeans(a[1..], b[1..]);
      if LexLe(a, b) && a[0] == b[0] && !(a[1..] <= b[1..]) {
        var k :| 0 <= k < |a[1..]| && k < |b[1..]| && a[1..][..k] == b[1..][..k] && a[1..][k] < b[1..][k];
        assert a[..k + 1] == [a[0]] + a[1..][..k] && b[..k + 1] == [b[0]] + b[1..][..k];
        assert a[k + 1] < b[k + 1];
      }
      if k :| 0 <= k < |a| && k < |b| && a[..k] == b[..k] && a[k] < b[k] {
        if k > 0 {
          assert a[0] == a[..k][0] == b[..k][0];
          assert a[1..][..k - 1] == a[..k][1..] && b[1..][..k - 1] == b[..k][1..];
        }
      }
      if a <= b {
        assert b[1..][..|a| - 1] == a[1..];
      }
    }
  }

  /** Appending the same node keeps the order, unless the smaller list is a proper prefix. */
  lemma {:induction false} LexAppend(a: seq<Id>, b: seq<Id>, x: Id)
    requires LexLe(a, b) && !(a < b)
    ensures LexLe(a + [x], b + [x])
  {
    if a != [] {
      assert (a + [x])[1..] == a[1..] + [x] && (b + [x])[1..] == b[1..] + [x];
      if a[0] == b[0] {
        assert a[1..] < b[1..] ==> a < b;
        LexAppend(a[1..], b[1..], x);
      }
    }
  }

  lemma EntryLeTransitive(e: Entry, f: Entry, g: Entry)
    requires EntryLe(e, f) && EntryLe(f, g)
    ensures EntryLe(e, g)
  {
    if LexLe(e.path, f.path) && LexLe(f.path, g.path) {
      LexTransitive(e.path, f.path, g.path);
    }
  }

  predicate Least(e: Entry, queue: multiset<Entry>) {
    e in queue && forall h :: h in queue ==> EntryLe(e, h)
  }

  lemma {:induction false} LeastExists(queue: multiset<Entry>)
    requires |queue| > 0
    ensures exists e :: Least(e, queue)
    decreases |queue|
  {
    var f :| f in queue;
    var rest := queue - multiset{f};
    LexTotal(f.path, f.path);
    if |rest| == 0 {
      assert queue == multiset{f};
      assert Least(f, queue);
    } else {
      LeastExists(rest);
      var e :| Least(e, rest);
      LexTotal(e.path, f.path);
      if EntryLe(e, f) {
        assert Least(e, queue);
      } else {
        forall h | h in queue ensures EntryLe(f, h) {
          if h in rest {
            EntryLeTransitive(f, e, h);
          }
        }
        assert Least(f, queue);
      }
    }
  }

  // ---- Walks ----

  function Length(edges: seq<Edge>): (d: real)
    ensures d >= 0.0
  {
    if edges == [] then 0.0 else Length(edges[..|edges| - 1]) + edges[|edges| - 1].length
  }

  /** The length of a list of edges is the sum of theirs. */
  lemma {:induction false} LengthAdds(a: seq<Edge>, b: seq<Edge>, e: Edge)
    ensures Length([e]) == e.length && Length(a + b) == Length(a) + Length(b)
  {
    assert [e][..0] == [];
    if b == [] {
      assert a + b == a;
    } else {
      LengthAdds(a, b[..|b| - 1], e);
      assert (a + b)[..|a + b| - 1] == a + b[..|b| - 1];
    }
  }

  /** A walk from `start` along listed edges that enters no forbidden node; the start itself is
      exempt. */
  ghost predicate Walk(edges: seq<Edge>, forbidden: set<Id>, start: Id, path: seq<Id>, along: seq<Edge>) {
    && |path| == |along| + 1 && path[0] == start
    && forall i :: 0 <= i < |along| ==> Hop(edges, forbidden, path, along, i)
  }

  ghost predicate Hop(edges: seq<Edge>, forbidden: set<Id>, path: seq<Id>, along: seq<Edge>, i: nat)
    requires |path| == |along| + 1 && i < |along|
  {
    along[i] in edges && Joins(along[i], path[i], path[i + 1]) && path[i + 1] !in forbidden
  }

  function Last(path: seq<Id>): Id
    requires path != []
  {
    path[|path| - 1]
  }

  ghost predicate Simple(path: seq<Id>) {
    forall i, j :: 0 <= i < j < |path| ==> path[i] != path[j]
  }

  /** Shorter, or as short and first in list order. */
  ghost predicate NoLater(d: real, p: seq<Id>, d': real, p': seq<Id>) {
    d < d' || (d == d' && LexLe(p, p'))
  }

  /** The path is least, by length and then in list order, among all walks to its end. */
  ghost predicate Best(edges: seq<Edge>, forbidden: set<Id>, start: Id, path: seq<Id>, along: seq<Edge>) {
    path != [] && forall p, es :: Walk(edges, forbidden, start, p, es) && Last(p) == Last(path) ==>
      NoLater(Length(along), path, Length(es), p)
  }

  lemma {:induction false} LengthPrefix(es: seq<Edge>, n: nat)
    requires n <= |es|
    ensures Length(es[..n]) <= Length(es) && (n < |es| ==> Length(es[..n]) < Length(es))
  {
    if n < |es| {
      var m := |es| - 1;
      LengthPrefix(es[..m], n);
      assert es[..m][..n] == es[..n];
    } else {
      assert es[..n] == es;
    }
  }

  lemma WalkPrefix(edges: seq<Edge>, forbidden: set<Id>, start: Id, p: seq<Id>, es: seq<Edge>, n: nat)
    requires Walk(edges, forbidden, start, p, es) && n <= |es|
    ensures Walk(edges, forbidden, start, p[..n + 1], es[..n])
    ensures Length(es[..n]) <= Length(es) && (n < |es| ==> Length(es[..n]) < Length(es))
  {
    LengthPrefix(es, n);
    var q, fs := p[..n + 1], es[..n];
    forall i | 0 <= i < n ensures Hop(edges, forbidden, q, fs, i) {
      assert Hop(edges, forbidden, p, es, i);
    }
  }

  lemma WalkExtend(edges: seq<Edge>, forbidden: set<Id>, start: Id, p: seq<Id>, es: seq<Edge>, e: Edge, v: Id)
    requires Walk(edges, forbidden, start, p, es) && e in edges && Joins(e, Last(p), v) && v !in forbidden
    ensures Walk(edges, forbidden, start, p + [v], es + [e]) && Length(es + [e]) == Length(es) + e.length
  {
    assert (es + [e])[..|es|] == es;
    var q, fs := p + [v], es + [e];
    forall i | 0 <= i < |fs| ensures Hop(edges, forbidden, q, fs, i) {
      if i < |es| {
        assert Hop(edges, forbidden, p, es, i);
      }
    }
  }

  // ---- The adjacency lists ----

  type Arc = (Id, Edge)

  /** The entries of `graph[node]`, in the order the loop appends them. */
  function Adjacent(edges: seq<Edge>, node: Id): seq<Arc> {
    if edges == [] then []
    else
      var e := edges[|edges| - 1];
      Adjacent(edges[..|edges| - 1], node)
      + (if e.fromNode == node then [(e.toNode, e)] else [])
      + (if e.bidirectional && e.toNode == node then [(e.fromNode, e)] else [])
  }

  lemma {:induction false} AdjacentIffJoins(edges: seq<Edge>, node: Id)
    ensures forall v, e :: (v, e) in Adjacent(edges, node) <==> e in edges && Joins(e, node, v)
  {
    if edges != [] {
      AdjacentIffJoins(edges[..|edges| - 1], node);
      assert edges == edges[..|edges| - 1] + [edges[|edges| - 1]];
    }
  }

  /** `graph.get(node, [])`. */
  function Neighbors(graph: map<Id, seq<Arc>>, node: Id): seq<Arc> {
    if node in graph then graph[node] else []
  }

  /** `graph.setdefault(node, []).append(arc)`. */
  function Append(graph: map<Id, seq<Arc>>, node: Id, arc: Arc): map<Id, seq<Arc>> {
    graph[node := Neighbors(graph, node) + [arc]]
  }

  function Grow(graph: map<Id, seq<Arc>>, e: Edge): map<Id, seq<Arc>> {
    var forward := Append(graph, e.fromNode, (e.toNode, e));
    if e.bidirectional then Append(forward, e.toNode, (e.fromNode, e)) else forward
  }

  lemma GrowNeighbors(graph: map<Id, seq<Arc>>, edges: seq<Edge>, k: nat, n: Id)
    requires k < |edges| && Neighbors(graph, n) == Adjacent(edges[..k], n)
    ensures Neighbors(Grow(graph, edges[k]), n) == Adjacent(edges[..k + 1], n)
  {
    var e := edges[k];
    assert edges[..k + 1][..k] == edges[..k];
    var forward := Append(graph, e.fromNode, (e.toNode, e));
    assert Neighbors(forward, n) == Neighbors(graph, n) + (if e.fromNode == n then [(e.toNode, e)] else []);
  }

  method BuildGraph(edges: seq<Edge>) returns (graph: map<Id, seq<Arc>>)
    ensures forall n :: Neighbors(graph, n) == Adjacent(edges, n)
  {
    graph := map[];
    for k := 0 to |edges|
      invariant forall n :: Neighbors(graph, n) == Adjacent(edges[..k], n)
    {
      var e := edges[k];
      ghost var before := graph;
      graph := Append(graph, e.fromNode, (e.toNode, e));
      if e.bidirectional {
        graph := Append(graph, e.toNode, (e.fromNode, e));
      }
      forall n ensures Neighbors(graph, n) == Adjacent(edges[..k + 1], n) {
        GrowNeighbors(before, edges, k, n);
      }
    }
    assert edges[..|edges|] == edges;
  }

  function Insert(arc: Arc, arcs: seq<Arc>): seq<Arc> {
    if arcs == [] || arc.0 <= arcs[0].0 then [arc] + arcs else [arcs[0]] + Insert(arc, arcs[1..])
  }

  /** `sorted(..., key=neighbour)`. */
  function Sorted(arcs: seq<Arc>): seq<Arc> {
    if arcs == [] then [] else Insert(arcs[0], Sorted(arcs[1..]))
  }

  lemma {:induction false} InsertSame(arc: Arc, arcs: seq<Arc>)
    ensures |Insert(arc, arcs)| == |arcs| + 1 && forall x :: x in Insert(arc, arcs) <==> x == arc || x in arcs
  {
    if arcs != [] {
      InsertSame(arc, arcs[1..]);
      assert forall x :: x in arcs <==> x == arcs[0] || x in arcs[1..];
    }
  }

  lemma {:induction false} SortedSame(arcs: seq<Arc>)
    ensures |Sorted(arcs)| == |arcs| && forall x :: x in Sorted(arcs) <==> x in arcs
  {
    if arcs != [] {
      SortedSame(arcs[1..]);
      InsertSame(arcs[0], Sorted(arcs[1..]));
      assert forall x :: x in arcs <==> x == arcs[0] || x in arcs[1..];
    }
  }

  /** How many adjacency entries the nodes of `from` have. */
  ghost function ArcsFrom(edges: seq<Edge>, from: set<Id>): nat {
    if edges == [] then 0
    else
      var e := edges[|edges| - 1];
      ArcsFrom(edges[..|edges| - 1], from)
      + (if e.fromNode in from then 1 else 0) + (if e.bidirectional && e.toNode in from then 1 else 0)
  }

  lemma {:induction false} ArcsFromBounds(edges: seq<Edge>, from: set<Id>, node: Id)
    ensures ArcsFrom(edges, from) <= 2 * |edges|
    ensures node !in from ==> ArcsFrom(edges, from + {node}) == ArcsFrom(edges, from) + |Adjacent(edges, node)|
  {
    if edges != [] {
      ArcsFromBounds(edges[..|edges| - 1], from, node);
    }
  }

  // ---- The search ----

  function Extend(entry: Entry, arc: Arc): Entry {
    Entry(entry.distance + arc.1.length, arc.0, entry.path + [arc.0], entry.edges + [arc.1])
  }

  /** The entries pushed when `entry` is expanded. */
  function Pushed(entry: Entry, arcs: seq<Arc>, forbidden: set<Id>): seq<Entry> {
    if arcs == [] then []
    else
      var arc := arcs[|arcs| - 1];
      Pushed(entry, arcs[..|arcs| - 1], forbidden)
      + (if arc.0 in forbidden || arc.0 in entry.path then [] else [Extend(entry, arc)])
  }

  lemma {:induction false} PushedAtMost(entry: Entry, arcs: seq<Arc>, forbidden: set<Id>)
    ensures |Pushed(entry, arcs, forbidden)| <= |arcs|
  {
    if arcs != [] {
      PushedAtMost(entry, arcs[..|arcs| - 1], forbidden);
    }
  }

  lemma {:induction false} PushedIff(entry: Entry, arcs: seq<Arc>, forbidden: set<Id>)
    ensures forall h :: h in Pushed(entry, arcs, forbidden) <==>
      exists arc :: arc in arcs && arc.0 !in forbidden && arc.0 !in entry.path && h == Extend(entry, arc)
  {
    if arcs != [] {
      var n := |arcs| - 1;
      PushedIff(entry, arcs[..n], forbidden);
      assert forall arc :: arc in arcs <==> arc in arcs[..n] || arc == arcs[n];
    }
  }

  /** The queue after `h` is popped and replaced by its extensions. */
  function Expanded(queue: multiset<Entry>, h: Entry, arcs: seq<Arc>, forbidden: set<Id>): multiset<Entry> {
    queue - multiset{h} + multiset(Pushed(h, arcs, forbidden))
  }

  lemma ExpandedIff(queue: multiset<Entry>, h: Entry, arcs: seq<Arc>, forbidden: set<Id>, f: Entry)
    ensures f in Expanded(queue, h, arcs, forbidden) ==> f in queue || f in Pushed(h, arcs, forbidden)
    ensures (f in queue && f != h) || f in Pushed(h, arcs, forbidden) ==> f in Expanded(queue, h, arcs, forbidden)
  {
  }

  /** The arcs expanded from `node` are its arcs, in some order. */
  ghost predicate ArcsOf(edges: seq<Edge>, node: Id, arcs: seq<Arc>) {
    forall arc: Arc :: arc in arcs <==> arc.1 in edges && Joins(arc.1, node, arc.0)
  }

  lemma SortedArcs(edges: seq<Edge>, node: Id)
    ensures ArcsOf(edges, node, Sorted(Adjacent(edges, node)))
  {
    AdjacentIffJoins(edges, node);
    SortedSame(Adjacent(edges, node));
  }

  datatype Problem = Problem(edges: seq<Edge>, forbidden: set<Id>, start: Id, destination: Id)

  /** An entry describes a simple walk whose inner nodes are settled. */
  ghost predicate Sound(pr: Problem, done: map<Id, Entry>, h: Entry) {
    && Walk(pr.edges, pr.forbidden, pr.start, h.path, h.edges)
    && h.node == Last(h.path) && h.distance == Length(h.edges) && Simple(h.path)
    && forall x :: x in h.path[..|h.path| - 1] ==> x in done
  }

  ghost predicate QueueSound(pr: Problem, queue: multiset<Entry>, done: map<Id, Entry>) {
    forall h :: h in queue ==> Sound(pr, done, h) && NotBefore(done, h)
  }

  /** Entries come off the queue in order of distance. */
  ghost predicate NotBefore(done: map<Id, Entry>, h: Entry) {
    forall u :: u in done ==> done[u].distance <= h.distance
  }

  ghost predicate DoneSound(pr: Problem, done: map<Id, Entry>) {
    forall u :: u in done ==>
      && Sound(pr, done, done[u]) && done[u].node == u && u != pr.destination
      && Best(pr.edges, pr.forbidden, pr.start, done[u].path, done[u].edges)
  }

  /** Every arc out of the settled region is represented in the queue. */
  ghost predicate FrontierQueued(pr: Problem, queue: multiset<Entry>, done: map<Id, Entry>) {
    && (pr.start !in done ==> Entry(0.0, pr.start, [pr.start], []) in queue)
    && forall u, v, e :: u in done && v !in done && v !in pr.forbidden && e in pr.edges && Joins(e, u, v) ==>
         Extend(done[u], (v, e)) in queue
  }

  /** The loop invariant; `done` remembers the entry each settled node was settled with. */
  ghost predicate Searching(pr: Problem, queue: multiset<Entry>, done: map<Id, Entry>) {
    QueueSound(pr, queue, done) && DoneSound(pr, done) && FrontierQueued(pr, queue, done)
  }

  /** Any walk to an unsettled node has a queued entry before it. */
  lemma {:induction false} FrontierBefore(pr: Problem, queue: multiset<Entry>, done: map<Id, Entry>, p: seq<Id>,
    es: seq<Edge>)
    returns (h: Entry)
    requires Searching(pr, queue, done)
    requires Walk(pr.edges, pr.forbidden, pr.start, p, es) && Last(p) !in done
    ensures h in queue
    ensures h.distance < Length(es) || (h.distance == Length(es) && h.node == Last(p) && LexLe(h.path, p))
    decreases |es|
  {
    if es == [] {
      h := Entry(0.0, pr.start, [pr.start], []);
    } else {
      var n := |es| - 1;
      var p', es', u, v, e := p[..n + 1], es[..n], p[n], p[n + 1], es[n];
      WalkPrefix(pr.edges, pr.forbidden, pr.start, p, es, n);
      assert Hop(pr.edges, pr.forbidden, p, es, n);
      if u !in done {
        h := FrontierBefore(pr, queue, done, p', es');
      } else {
        h := Extend(done[u], (v, e));
        BestExtends(pr, done, p', es', u, v);
        assert p == p' + [v];
      }
    }
  }

  /** Extending the best path to `u` is no later than extending any walk to `u`. */
  lemma {:induction false} BestExtends(pr: Problem, done: map<Id, Entry>, p: seq<Id>, es: seq<Edge>, u: Id, v: Id)
    requires DoneSound(pr, done) && u in done
    requires Walk(pr.edges, pr.forbidden, pr.start, p, es) && Last(p) == u
    ensures NoLater(done[u].distance, done[u].path + [v], Length(es), p + [v])
  {
    var b := done[u];
    assert NoLater(Length(b.edges), b.path, Length(es), p);
    if b.distance == Length(es) {
      if b.path < p {
        // Then `p` visits `u` earlier, on a strictly shorter walk.
        var n := |b.path| - 1;
        WalkPrefix(pr.edges, pr.forbidden, pr.start, p, es, n);
        assert false;
      }
      LexAppend(b.path, p, v);
    }
  }

  /** The entry popped for an unsettled node is the best walk to it. */
  lemma {:induction false} PoppedIsBest(pr: Problem, queue: multiset<Entry>, done: map<Id, Entry>, h: Entry)
    requires Searching(pr, queue, done) && Least(h, queue) && h.node !in done
    ensures Best(pr.edges, pr.forbidden, pr.start, h.path, h.edges)
  {
    forall p, es | Walk(pr.edges, pr.forbidden, pr.start, p, es) && Last(p) == Last(h.path)
      ensures NoLater(Length(h.edges), h.path, Length(es), p)
    {
      var f := FrontierBefore(pr, queue, done, p, es);
      assert EntryLe(h, f);
      if f.distance == Length(es) && h.distance == f.distance {
        LexTransitive(h.path, f.path, p);
      }
    }
  }

  /** Dropping a stale entry. */
  lemma SkipKeeps(pr: Problem, queue: multiset<Entry>, done: map<Id, Entry>, h: Entry)
    requires Searching(pr, queue, done) && h in queue && h.node in done
    ensures Searching(pr, queue - multiset{h}, done)
  {
    var rest := queue - multiset{h};
    assert forall f :: f in queue && f != h ==> f in rest;
    assert forall u, v, e :: u in done && v !in done ==> Extend(done[u], (v, e)).node == v;
  }

  /** Settling the popped node. */
  lemma {:induction false} SettleKeepsDone(pr: Problem, queue: multiset<Entry>, done: map<Id, Entry>, h: Entry)
    requires Searching(pr, queue, done) && Least(h, queue) && h.node !in done && h.node != pr.destination
    ensures DoneSound(pr, done[h.node := h])
  {
    PoppedIsBest(pr, queue, done, h);
    forall u | u in done ensures Sound(pr, done[h.node := h], done[u]) {
      SoundGrows(pr, done, h, done[u]);
    }
    SoundGrows(pr, done, h, h);
  }

  lemma SoundGrows(pr: Problem, done: map<Id, Entry>, h: Entry, f: Entry)
    requires Sound(pr, done, f)
    ensures Sound(pr, done[h.node := h], f)
  {
  }

  lemma ExtensionSound(pr: Problem, done: map<Id, Entry>, h: Entry, arc: Arc)
    requires Sound(pr, done, h) && h.node in done
    requires arc.1 in pr.edges && Joins(arc.1, h.node, arc.0) && arc.0 !in pr.forbidden && arc.0 !in h.path
    ensures Sound(pr, done, Extend(h, arc))
  {
    WalkExtend(pr.edges, pr.forbidden, pr.start, h.path, h.edges, arc.1, arc.0);
    var f := Extend(h, arc);
    assert f.path[..|f.path| - 1] == h.path;
    forall x | x in h.path ensures x in done {
      var i :| 0 <= i < |h.path| && h.path[i] == x;
      if i < |h.path| - 1 {
        assert x == h.path[..|h.path| - 1][i];
      }
    }
  }

  /** Pushing the extensions of the popped entry. */
  lemma {:induction false} SettleKeepsQueue(pr: Problem, queue: multiset<Entry>, done: map<Id, Entry>, h: Entry,
    arcs: seq<Arc>)
    requires QueueSound(pr, queue, done) && Least(h, queue) && ArcsOf(pr.edges, h.node, arcs)
    ensures QueueSound(pr, Expanded(queue, h, arcs, pr.forbidden), done[h.node := h])
  {
    forall f | f in Expanded(queue, h, arcs, pr.forbidden)
      ensures Sound(pr, done[h.node := h], f) && NotBefore(done[h.node := h], f)
    {
      ExpandedIff(queue, h, arcs, pr.forbidden, f);
      if f in queue {
        QueuedStaysSound(pr, queue, done, h, f);
      } else {
        PushedIsSound(pr, queue, done, h, arcs, f);
      }
    }
  }

  lemma QueuedStaysSound(pr: Problem, queue: multiset<Entry>, done: map<Id, Entry>, h: Entry, f: Entry)
    requires QueueSound(pr, queue, done) && Least(h, queue) && f in queue
    ensures Sound(pr, done[h.node := h], f) && NotBefore(done[h.node := h], f)
  {
    SoundGrows(pr, done, h, f);
    assert EntryLe(h, f);
  }

  lemma PushedIsSound(pr: Problem, queue: multiset<Entry>, done: map<Id, Entry>, h: Entry, arcs: seq<Arc>, f: Entry)
    requires QueueSound(pr, queue, done) && h in queue && ArcsOf(pr.edges, h.node, arcs)
    requires f in Pushed(h, arcs, pr.forbidden)
    ensures Sound(pr, done[h.node := h], f) && NotBefore(done[h.node := h], f)
  {
    PushedIff(h, arcs, pr.forbidden);
    var arc :| arc in arcs && arc.0 !in pr.forbidden && arc.0 !in h.path && f == Extend(h, arc);
    SoundGrows(pr, done, h, h);
    ExtensionSound(pr, done[h.node := h], h, arc);
    assert NotBefore(done, h);
  }

  lemma InnerNodesDone(pr: Problem, done: map<Id, Entry>, h: Entry, v: Id)
    requires Sound(pr, done, h) && v !in done && v != h.node
    ensures v !in h.path
  {
    forall i | 0 <= i < |h.path| ensures h.path[i] != v {
      if i < |h.path| - 1 {
        assert h.path[i] == h.path[..|h.path| - 1][i];
      }
    }
  }

  lemma {:induction false} SettleKeepsFrontier(pr: Problem, queue: multiset<Entry>, done: map<Id, Entry>, h: Entry,
    arcs: seq<Arc>)
    requires FrontierQueued(pr, queue, done) && h in queue && Sound(pr, done, h) && ArcsOf(pr.edges, h.node, arcs)
    ensures FrontierQueued(pr, Expanded(queue, h, arcs, pr.forbidden), done[h.node := h])
  {
    var done' := done[h.node := h];
    forall u, v, e | u in done' && v !in done' && v !in pr.forbidden && e in pr.edges && Joins(e, u, v)
      ensures Extend(done'[u], (v, e)) in Expanded(queue, h, arcs, pr.forbidden)
    {
      ExpandedIff(queue, h, arcs, pr.forbidden, Extend(done'[u], (v, e)));
      if u == h.node {
        InnerNodesDone(pr, done, h, v);
        assert (v, e) in arcs;
        ExtensionPushed(h, arcs, pr.forbidden, (v, e));
      } else {
        assert Extend(done[u], (v, e)).node == v;
      }
    }
    ExpandedIff(queue, h, arcs, pr.forbidden, Entry(0.0, pr.start, [pr.start], []));
  }

  lemma ExtensionPushed(h: Entry, arcs: seq<Arc>, forbidden: set<Id>, arc: Arc)
    requires arc in arcs && arc.0 !in forbidden && arc.0 !in h.path
    ensures Extend(h, arc) in Pushed(h, arcs, forbidden)
  {
    PushedIff(h, arcs, forbidden);
  }

  lemma {:induction false} InitiallySearching(pr: Problem)
    ensures Searching(pr, multiset{Entry(0.0, pr.start, [pr.start], [])}, map[])
  {
  }

  /** With an empty queue nothing unsettled can be reached. */
  lemma {:induction false} ExhaustedMeansUnreachable(pr: Problem, done: map<Id, Entry>)
    requires Searching(pr, multiset{}, done)
    ensures forall p, es :: Walk(pr.edges, pr.forbidden, pr.start, p, es) ==> Last(p) != pr.destination
  {
    forall p, es | Walk(pr.edges, pr.forbidden, pr.start, p, es) && Last(p) == pr.destination
      ensures false
    {
      var h := FrontierBefore(pr, multiset{}, done, p, es);
    }
  }

  /** What the search answers: the best simple walk to the destination, or None exactly when no walk
      leads there. */
  ghost predicate Answer(pr: Problem, route: Option<(seq<Id>, seq<Edge>)>) {
    match route
    case Some((path, along)) =>
      && Walk(pr.edges, pr.forbidden, pr.start, path, along) && Last(path) == pr.destination
      && Simple(path) && Best(pr.edges, pr.forbidden, pr.start, path, along)
    case None => forall p, es :: Walk(pr.edges, pr.forbidden, pr.start, p, es) ==> Last(p) != pr.destination
  }

  lemma PoppedIsAnswer(pr: Problem, queue: multiset<Entry>, done: map<Id, Entry>, h: Entry)
    requires Searching(pr, queue, done) && Least(h, queue) && h.node !in done && h.node == pr.destination
    ensures Answer(pr, Some((h.path, h.edges)))
  {
    PoppedIsBest(pr, queue, done, h);
  }

  /** The heap never held more entries than the start plus the adjacency entries of settled nodes. */
  ghost predicate Budget(edges: seq<Edge>, settled: set<Id>, pops: nat, queued: nat) {
    pops + queued <= 1 + ArcsFrom(edges, settled)
  }

  lemma BudgetKept(edges: seq<Edge>, settled: set<Id>, pops: nat, queued: nat, entry: Entry, arcs: seq<Arc>,
    forbidden: set<Id>)
    requires Budget(edges, settled, pops, queued) && queued > 0 && entry.node !in settled
    requires arcs == Sorted(Adjacent(edges, entry.node))
    ensures Budget(edges, settled + {entry.node}, pops + 1, queued - 1 + |Pushed(entry, arcs, forbidden)|)
  {
    ArcsFromBounds(edges, settled, entry.node);
    SortedSame(Adjacent(edges, entry.node));
    PushedAtMost(entry, arcs, forbidden);
  }

  /** The whole loop invariant: `best` holds the settled distances. */
  ghost predicate Progress(pr: Problem, queue: multiset<Entry>, best: map<Id, real>, done: map<Id, Entry>, pops: nat) {
    && Searching(pr, queue, done)
    && Distances(best, done)
    && Budget(pr.edges, best.Keys, pops, |queue|)
  }

  ghost predicate Distances(best: map<Id, real>, done: map<Id, Entry>) {
    best.Keys == done.Keys && forall u :: u in best ==> best[u] == done[u].distance
  }

  lemma DistancesSettle(best: map<Id, real>, done: map<Id, Entry>, h: Entry)
    requires Distances(best, done)
    ensures Distances(best[h.node := h.distance], done[h.node := h])
    ensures best[h.node := h.distance].Keys == best.Keys + {h.node}
  {
  }

  lemma {:induction false} ProgressStarts(pr: Problem)
    ensures Progress(pr, multiset{Entry(0.0, pr.start, [pr.start], [])}, map[], map[], 0)
  {
    InitiallySearching(pr);
  }

  lemma {:induction false} ProgressSkips(pr: Problem, queue: multiset<Entry>, best: map<Id, real>,
    done: map<Id, Entry>, pops: nat, h: Entry)
    requires Progress(pr, queue, best, done, pops) && h in queue && h.node in best
    ensures best[h.node] <= h.distance
    ensures Progress(pr, queue - multiset{h}, best, done, pops + 1)
  {
    SkipKeeps(pr, queue, done, h);
    assert NotBefore(done, h);
  }

  lemma {:induction false} ProgressSettles(pr: Problem, queue: multiset<Entry>, best: map<Id, real>,
    done: map<Id, Entry>, pops: nat,
    h: Entry, queue': multiset<Entry>)
    requires Progress(pr, queue, best, done, pops) && Least(h, queue) && h.node !in best && h.node != pr.destination
    requires var arcs := Sorted(Adjacent(pr.edges, h.node));
      queue' == Expanded(queue, h, arcs, pr.forbidden) && |queue'| == |queue| - 1 + |Pushed(h, arcs, pr.forbidden)|
    ensures Progress(pr, queue', best[h.node := h.distance], done[h.node := h], pops + 1)
  {
    var arcs := Sorted(Adjacent(pr.edges, h.node));
    SortedArcs(pr.edges, h.node);
    SettleKeeps(pr, queue, done, h, arcs);
    DistancesSettle(best, done, h);
    BudgetKept(pr.edges, best.Keys, pops, |queue|, h, arcs, pr.forbidden);
  }

  lemma ProgressBounds(pr: Problem, queue: multiset<Entry>, best: map<Id, real>, done: map<Id, Entry>, pops: nat)
    requires Progress(pr, queue, best, done, pops)
    ensures pops + |queue| <= 1 + 2 * |pr.edges|
  {
    ArcsFromBounds(pr.edges, best.Keys, 0);
  }

  /** The search takes at most one heap entry for the start and one per direction of each edge. */
  method ShortestPath(start: Id, destination: Id, edges: seq<Edge>, forbidden: set<Id>)
    returns (route: Option<(seq<Id>, seq<Edge>)>, ghost pops: nat)
    ensures Answer(Problem(edges, forbidden, start, destination), route)
    ensures pops <= 1 + 2 * |edges|
  {
    var graph := BuildGraph(edges);
    var queue := multiset{Entry(0.0, start, [start], [])};
    var best: map<Id, real> := map[];
    ghost var pr := Problem(edges, forbidden, start, destination);
    ghost var done: map<Id, Entry> := map[];
    pops := 0;
    ProgressStarts(pr);
    while |queue| > 0
      invariant Progress(pr, queue, best, done, pops)
      decreases 1 + 2 * |edges| - pops
    {
      LeastExists(queue);
      ProgressBounds(pr, queue, best, done, pops);
      var entry :| Least(entry, queue);
      if entry.node in best && best[entry.node] <= entry.distance {
        ProgressSkips(pr, queue, best, done, pops, entry);
        queue, pops := queue - multiset{entry}, pops + 1;
        continue;
      }
      if entry.node in best {
        ProgressSkips(pr, queue, best, done, pops, entry);
        assert false;
      }
      if entry.node == destination {
        PoppedIsAnswer(pr, queue, done, entry);
        return Some((entry.path, entry.edges)), pops + 1;
      }
      var queue' := PushAll(queue, entry, Sorted(Neighbors(graph, entry.node)), forbidden);
      ProgressSettles(pr, queue, best, done, pops, entry, queue');
      best := best[entry.node := entry.distance];
      queue, done, pops := queue', done[entry.node := entry], pops + 1;
    }
    ProgressBounds(pr, queue, best, done, pops);
    ExhaustedMeansUnreachable(pr, done);
    return None, pops;
  }

  /** The inner loop: pop `entry`, then push its extensions one by one. */
  method PushAll(queue: multiset<Entry>, entry: Entry, arcs: seq<Arc>, forbidden: set<Id>)
    returns (queue': multiset<Entry>)
    requires entry in queue
    ensures queue' == Expanded(queue, entry, arcs, forbidden)
    ensures |queue'| == |queue| - 1 + |Pushed(entry, arcs, forbidden)|
  {
    queue' := queue - multiset{entry};
    for k := 0 to |arcs|
      invariant queue' == Expanded(queue, entry, arcs[..k], forbidden)
    {
      var (neighbor, edge) := arcs[k];
      assert arcs[..k + 1][..k] == arcs[..k];
      if neighbor in forbidden || neighbor in entry.path {
        continue;
      }
      queue' := queue' + multiset{Extend(entry, (neighbor, edge))};
    }
    assert arcs[..|arcs|] == arcs;
  }

  lemma {:induction false} SettleKeeps(pr: Problem, queue: multiset<Entry>, done: map<Id, Entry>, h: Entry,
    arcs: seq<Arc>)
    requires Searching(pr, queue, done) && Least(h, queue) && h.node !in done && h.node != pr.destination
    requires ArcsOf(pr.edges, h.node, arcs)
    ensures Searching(pr, Expanded(queue, h, arcs, pr.forbidden), done[h.node := h])
  {
    SettleKeepsDone(pr, queue, done, h);
    SettleKeepsQueue(pr, queue, done, h, arcs);
    SettleKeepsFrontier(pr, queue, done, h, arcs);
  }

  lemma SameEdgesSameWalks(edges: seq<Edge>, edges': seq<Edge>, forbidden: set<Id>, start: Id, p: seq<Id>,
    es: seq<Edge>)
    requires forall e :: e in edges <==> e in edges'
    requires Walk(edges, forbidden, start, p, es)
    ensures Walk(edges', forbidden, start, p, es)
  {
    forall i | 0 <= i < |es| ensures Hop(edges', forbidden, p, es, i) {
      assert Hop(edges, forbidden, p, es, i);
    }
  }

  /** The route does not depend on the order in which edges are listed, nor on how ties in the heap
      are broken: two searches over the same edges return the same nodes, over the same distance. */
  lemma {:induction false} RouteIsCanonical(edges: seq<Edge>, edges': seq<Edge>, forbidden: set<Id>, start: Id,
    p: seq<Id>, es: seq<Edge>, p': seq<Id>, es': seq<Edge>)
    requires forall e :: e in edges <==> e in edges'
    requires Walk(edges, forbidden, start, p, es) && Best(edges, forbidden, start, p, es)
    requires Walk(edges', forbidden, start, p', es') && Best(edges', forbidden, start, p', es')
    requires Last(p) == Last(p')
    ensures p == p' && Length(es) == Length(es')
  {
    SameEdgesSameWalks(edges, edges', forbidden, start, p, es);
    SameEdgesSameWalks(edges', edges, forbidden, start, p', es');
    assert NoLater(Length(es), p, Length(es'), p') && NoLater(Length(es'), p', Length(es), p);
    LexAntisymmetric(p, p');
  }
}
