/** The reverse relationship probe: a bounded breadth-first search that looks at each relationship row once. */
module Probe {
  import opened Wrappers

  const MAX_DEPTH := 2

  /** A `cmdb_rel_ci` row; an end that is no valid sys_id is absent. */
  datatype Edge = Edge(id: string, parent: Option<string>, child: Option<string>, allowed: bool)

  datatype Direction = Parent | Child

  function Near(e: Edge, d: Direction): Option<string> {
    if d.Parent? then e.parent else e.child
  }

  function Far(e: Edge, d: Direction): Option<string> {
    if d.Parent? then e.child else e.parent
  }

  /** `rows` answers the two neighbour queries, in any order and with any repetitions; the class belongs to the node. */
  datatype Graph = Graph(edges: set<Edge>, rows: (string, Direction) -> seq<Edge>, isApp: string -> bool)

  ghost predicate WellFormed(g: Graph) {
    && (forall e, f :: e in g.edges && f in g.edges && e.id == f.id ==> e == f)
    && (forall n, d, e :: e in g.rows(n, d) <==> e in g.edges && Near(e, d) == Some(n))
  }

  /** One hop along an allowed row, whichever way round it is stored. */
  datatype Step = Step(edge: Edge, to: string)

  datatype Hit = Hit(sysId: string, path: seq<Step>)

  // ---- routes ----

  ghost predicate Joins(e: Edge, a: string, b: string) {
    (e.parent == Some(a) && e.child == Some(b)) || (e.child == Some(a) && e.parent == Some(b))
  }

  ghost predicate Hop(g: Graph, from: string, s: Step) {
    s.edge in g.edges && s.edge.allowed && Joins(s.edge, from, s.to)
  }

  function NodeAt(from: string, path: seq<Step>, i: nat): string
    requires i <= |path|
  {
    if i == 0 then from else path[i - 1].to
  }

  ghost predicate Walk(g: Graph, from: string, path: seq<Step>) {
    forall i :: 0 <= i < |path| ==> Hop(g, NodeAt(from, path, i), path[i])
  }

  /** A walk whose every stop before the last is no Business Application. */
  ghost predicate Route(g: Graph, from: string, path: seq<Step>, to: string) {
    && path != [] && Walk(g, from, path) && path[|path| - 1].to == to
    && forall i :: 0 <= i < |path| - 1 ==> !g.isApp(path[i].to)
  }

  /** A walk to a node the search expands: the start, or one that is no Business Application. */
  ghost predicate PlainWalk(g: Graph, from: string, path: seq<Step>, to: string) {
    && Walk(g, from, path) && NodeAt(from, path, |path|) == to
    && forall i :: 0 <= i < |path| ==> !g.isApp(path[i].to)
  }

  ghost predicate HasWalk(g: Graph, start: string, n: string, length: nat) {
    exists path :: PlainWalk(g, start, path, n) && |path| == length
  }

  ghost predicate ReachableIn(g: Graph, start: string, bound: nat, to: string) {
    exists path :: Route(g, start, path, to) && |path| <= bound
  }

  ghost predicate ExpandedIn(g: Graph, start: string, bound: nat, n: string) {
    exists length :: 0 <= length < bound && HasWalk(g, start, n, length)
  }

  ghost predicate SelfLoop(g: Graph, n: string) {
    exists e :: e in g.edges && e.allowed && Joins(e, n, n)
  }

  ghost predicate Touches(e: Edge, n: string) {
    e.parent == Some(n) || e.child == Some(n)
  }

  /** Every node the search can name. */
  ghost function Nodes(g: Graph, start: string): set<string> {
    {start} + (set e | e in g.edges && e.parent.Some? :: e.parent.value)
    + (set e | e in g.edges && e.child.Some? :: e.child.value)
  }

  // ---- the state of the search ----

  datatype Item = Item(node: string, depth: nat, path: seq<Step>)

  /** The queue, each visited node with its depth, seen row ids, hits in order, and the finished nodes. */
  datatype Search = Search(
    queue: seq<Item>, depth: map<string, nat>, seen: set<string>, hits: seq<Hit>, done: set<string>)

  ghost predicate ItemFits(g: Graph, start: string, bound: nat, st: Search, it: Item) {
    && it.node in st.depth && st.depth[it.node] == it.depth == |it.path| && it.depth <= bound
    && it.node !in st.done && PlainWalk(g, start, it.path, it.node)
  }

  ghost predicate HitFits(g: Graph, start: string, bound: nat, h: Hit) {
    && g.isApp(h.sysId) && Route(g, start, h.path, h.sysId) && |h.path| <= bound
    && (h.sysId == start ==> |h.path| == 1)
  }

  ghost predicate HasHit(st: Search, n: string, length: nat) {
    exists i :: 0 <= i < |st.hits| && st.hits[i].sysId == n && |st.hits[i].path| <= length
  }

  /** What the search owes node `m`, seen from `n`, within the given depth. */
  ghost predicate Covered(g: Graph, start: string, st: Search, n: string, m: string, depth: nat) {
    if g.isApp(m) then (m == start && n != start) || HasHit(st, m, depth)
    else m in st.depth && st.depth[m] <= depth
  }

  /** Every seen row at `n` has had its other end dealt with. */
  ghost predicate SeenCovered(g: Graph, start: string, st: Search, n: string, depth: nat) {
    forall e, m :: e in g.edges && e.id in st.seen && e.allowed && Joins(e, n, m) ==> Covered(g, start, st, n, m, depth)
  }

  ghost predicate AllSeen(g: Graph, st: Search, n: string) {
    forall e :: e in g.edges && Touches(e, n) ==> e.id in st.seen
  }

  ghost predicate Explored(g: Graph, start: string, bound: nat, st: Search, n: string) {
    n in st.depth && (st.depth[n] < bound ==> AllSeen(g, st, n) && SeenCovered(g, start, st, n, st.depth[n] + 1))
  }

  /** Row `id` lies at an expanded node; `extra` holds the node being expanded, if any. */
  ghost predicate SeenFrom(g: Graph, bound: nat, st: Search, extra: set<string>, id: string) {
    exists e, n :: e in g.edges && e.id == id && Touches(e, n) && n in st.depth && st.depth[n] < bound
                && (n in st.done || n in extra)
  }

  ghost predicate Pending(st: Search, n: string) {
    exists i :: 0 <= i < |st.queue| && st.queue[i].node == n
  }

  ghost predicate NodesFit(g: Graph, start: string, bound: nat, st: Search, extra: set<string>, level: nat) {
    && start in st.depth && st.depth[start] == 0
    && (forall n :: n in st.depth ==> st.depth[n] <= bound && st.depth[n] <= level + 1)
    && (forall n :: n in st.depth && n != start ==> !g.isApp(n) && st.depth[n] > 0 && n in Nodes(g, start))
    && (forall n :: n in st.depth ==> HasWalk(g, start, n, st.depth[n]))
    && (forall n :: n in st.depth ==> n in st.done || n in extra || Pending(st, n))
    && (forall n :: n in st.done ==> n in st.depth && st.depth[n] <= level && n !in extra)
  }

  ghost predicate QueueFits(g: Graph, start: string, bound: nat, st: Search, extra: set<string>, level: nat) {
    && (forall i :: 0 <= i < |st.queue| ==> ItemFits(g, start, bound, st, st.queue[i]) && st.queue[i].node !in extra)
    && (forall i, j :: 0 <= i < j < |st.queue| ==> st.queue[i].node != st.queue[j].node)
    && (forall i :: 0 <= i < |st.queue| ==> level <= st.queue[i].depth <= level + 1)
    && (forall i, j :: 0 <= i < j < |st.queue| ==> st.queue[i].depth <= st.queue[j].depth)
  }

  ghost predicate HitsFit(g: Graph, start: string, bound: nat, st: Search, level: nat) {
    && (forall i :: 0 <= i < |st.hits| ==> HitFits(g, start, bound, st.hits[i]) && |st.hits[i].path| <= level + 1)
    && (forall i, j :: 0 <= i < j < |st.hits| ==> |st.hits[i].path| <= |st.hits[j].path|)
  }

  ghost predicate DoneFits(g: Graph, start: string, bound: nat, st: Search) {
    forall n :: n in st.done ==> Explored(g, start, bound, st, n)
  }

  ghost predicate SeenFits(g: Graph, bound: nat, st: Search, extra: set<string>) {
    forall id :: id in st.seen ==> SeenFrom(g, bound, st, extra, id)
  }

  /** The invariant of the search while the nodes of `extra` (none, or the one being expanded) stand at `level`. */
  ghost predicate SearchFits(g: Graph, start: string, bound: nat, st: Search, extra: set<string>, level: nat) {
    && NodesFit(g, start, bound, st, extra, level)
    && QueueFits(g, start, bound, st, extra, level)
    && HitsFit(g, start, bound, st, level)
    && DoneFits(g, start, bound, st)
    && SeenFits(g, bound, st, extra)
  }

  // ---- every step keeps the invariant ----

  /** Finding more never takes back what was owed. */
  lemma CoverageGrows(g: Graph, start: string, st: Search, next: Search, n: string, depth: nat)
    requires SeenCovered(g, start, st, n, depth)
    requires next.seen == st.seen && st.hits <= next.hits
    requires forall m :: m in st.depth ==> m in next.depth && next.depth[m] == st.depth[m]
    ensures SeenCovered(g, start, next, n, depth)
  {
    forall e, m | e in g.edges && e.id in next.seen && e.allowed && Joins(e, n, m)
      ensures Covered(g, start, next, n, m, depth)
    {
      assert Covered(g, start, st, n, m, depth);
      if HasHit(st, m, depth) {
        var i :| 0 <= i < |st.hits| && st.hits[i].sysId == m && |st.hits[i].path| <= depth;
        assert next.hits[i] == st.hits[i];
      }
    }
  }

  lemma DoneGrows(g: Graph, start: string, bound: nat, st: Search, next: Search)
    requires DoneFits(g, start, bound, st)
    requires next.seen == st.seen && st.hits <= next.hits && next.done == st.done
    requires forall m :: m in st.depth ==> m in next.depth && next.depth[m] == st.depth[m]
    ensures DoneFits(g, start, bound, next)
  {
    hide SeenCovered, AllSeen;
    forall n | n in next.done ensures Explored(g, start, bound, next, n) {
      assert Explored(g, start, bound, st, n);
      if st.depth[n] < bound {
        CoverageGrows(g, start, st, next, n, st.depth[n] + 1);
        AllSeenGrows(g, st, next, n);
      }
    }
  }

  lemma AllSeenGrows(g: Graph, st: Search, next: Search, n: string)
    requires AllSeen(g, st, n) && st.seen <= next.seen
    ensures AllSeen(g, next, n)
  {
  }

  lemma SeenGrows(g: Graph, bound: nat, st: Search, next: Search, extra: set<string>, more: set<string>)
    requires SeenFits(g, bound, st, extra) && next.seen == st.seen && st.done + extra <= next.done + more
    requires forall m :: m in st.depth ==> m in next.depth && next.depth[m] == st.depth[m]
    ensures SeenFits(g, bound, next, more)
  {
    hide Touches;
    forall id | id in next.seen ensures SeenFrom(g, bound, next, more, id) {
      assert SeenFrom(g, bound, st, extra, id);
      var e, n :| e in g.edges && e.id == id && Touches(e, n) && n in st.depth && st.depth[n] < bound
               && (n in st.done || n in extra);
      assert n in st.done + extra;
      assert n in next.done + more;
      assert next.depth[n] == st.depth[n];
    }
  }

  lemma StartFits(g: Graph, start: string, bound: nat)
    ensures SearchFits(g, start, bound, Search([Item(start, 0, [])], map[start := 0], {}, [], {}), {}, 0)
  {
    var st := Search([Item(start, 0, [])], map[start := 0], {}, [], {});
    assert st.queue[0].node == start;
    assert PlainWalk(g, start, [], start);
    assert HasWalk(g, start, start, 0);
    assert Pending(st, start);
  }

  /** Taking the front of the queue makes its node the one being expanded. */
  lemma PopFits(g: Graph, start: string, bound: nat, st: Search, level: nat)
    requires SearchFits(g, start, bound, st, {}, level) && st.queue != []
    ensures SearchFits(g, start, bound, st.(queue := st.queue[1..]), {st.queue[0].node}, st.queue[0].depth)
    ensures ItemFits(g, start, bound, st, st.queue[0]) && level <= st.queue[0].depth
  {
    var it, next := st.queue[0], st.(queue := st.queue[1..]);
    hide DoneFits, SeenFits;
    DoneGrows(g, start, bound, st, next);
    SeenGrows(g, bound, st, next, {}, {it.node});
    PopKeepsQueue(g, start, bound, st, level);
    PopKeepsNodes(g, start, bound, st, level);
    hide QueueFits, NodesFit;
    PopKeepsHits(g, start, bound, st, level, it.depth);
  }

  lemma PopKeepsHits(g: Graph, start: string, bound: nat, st: Search, level: nat, next: nat)
    requires HitsFit(g, start, bound, st, level) && level <= next
    ensures HitsFit(g, start, bound, st.(queue := if st.queue == [] then [] else st.queue[1..]), next)
  {
    hide HitFits;
  }

  lemma PopKeepsQueue(g: Graph, start: string, bound: nat, st: Search, level: nat)
    requires QueueFits(g, start, bound, st, {}, level) && st.queue != []
    ensures QueueFits(g, start, bound, st.(queue := st.queue[1..]), {st.queue[0].node}, st.queue[0].depth)
    ensures ItemFits(g, start, bound, st, st.queue[0]) && level <= st.queue[0].depth <= level + 1
  {
    hide PlainWalk;
    var next := st.(queue := st.queue[1..]);
    forall i | 0 <= i < |next.queue|
      ensures ItemFits(g, start, bound, next, next.queue[i]) && next.queue[i].node !in {st.queue[0].node}
    {
      assert next.queue[i] == st.queue[i + 1];
      assert ItemFits(g, start, bound, st, st.queue[i + 1]);
    }
  }

  lemma PopKeepsNodes(g: Graph, start: string, bound: nat, st: Search, level: nat)
    requires NodesFit(g, start, bound, st, {}, level) && st.queue != []
    requires ItemFits(g, start, bound, st, st.queue[0]) && level <= st.queue[0].depth
    ensures NodesFit(g, start, bound, st.(queue := st.queue[1..]), {st.queue[0].node}, st.queue[0].depth)
  {
    hide HasWalk;
    hide PlainWalk, Nodes;
    var it, next := st.queue[0], st.(queue := st.queue[1..]);
    forall n | n in next.depth && n !in next.done && n != it.node ensures Pending(next, n) {
      assert Pending(st, n);
      var i :| 0 <= i < |st.queue| && st.queue[i].node == n;
      assert next.queue[i - 1].node == n;
    }
  }

  /** A node whose rows have all been looked at joins the finished ones. */
  lemma FinishFits(g: Graph, start: string, bound: nat, st: Search, n: string, level: nat)
    requires SearchFits(g, start, bound, st, {n}, level)
    requires Explored(g, start, bound, st, n) && st.depth[n] <= level
    ensures SearchFits(g, start, bound, st.(done := st.done + {n}), {}, level)
  {
    var next := st.(done := st.done + {n});
    assert DoneFits(g, start, bound, next) by {
      hide SeenCovered, AllSeen;
      FinishKeepsDone(g, start, bound, st, n);
    }
    hide DoneFits, Explored, SeenFits;
    SeenGrows(g, bound, st, next, {n}, {});
    assert HitsFit(g, start, bound, next, level) by {
      hide HitFits, NodesFit, QueueFits;
    }
    hide HitsFit;
    FinishKeepsQueue(g, start, bound, st, n, level);
    FinishKeepsNodes(g, start, bound, st, n, level);
  }

  lemma FinishKeepsDone(g: Graph, start: string, bound: nat, st: Search, n: string)
    requires DoneFits(g, start, bound, st) && Explored(g, start, bound, st, n)
    ensures DoneFits(g, start, bound, st.(done := st.done + {n}))
  {
    var next := st.(done := st.done + {n});
    hide SeenCovered, AllSeen;
    forall m | m in next.done ensures Explored(g, start, bound, next, m) {
      assert Explored(g, start, bound, st, m);
      if st.depth[m] < bound {
        CoverageGrows(g, start, st, next, m, st.depth[m] + 1);
        AllSeenGrows(g, st, next, m);
      }
    }
  }

  lemma FinishKeepsQueue(g: Graph, start: string, bound: nat, st: Search, n: string, level: nat)
    requires QueueFits(g, start, bound, st, {n}, level)
    ensures QueueFits(g, start, bound, st.(done := st.done + {n}), {}, level)
  {
    hide PlainWalk;
    forall i | 0 <= i < |st.queue| ensures ItemFits(g, start, bound, st.(done := st.done + {n}), st.queue[i]) {
      assert ItemFits(g, start, bound, st, st.queue[i]);
    }
  }

  lemma FinishKeepsNodes(g: Graph, start: string, bound: nat, st: Search, n: string, level: nat)
    requires NodesFit(g, start, bound, st, {n}, level) && n in st.depth && st.depth[n] <= level
    ensures NodesFit(g, start, bound, st.(done := st.done + {n}), {}, level)
  {
    hide HasWalk;
    hide Nodes;
    var next := st.(done := st.done + {n});
    forall m | m in next.depth && m !in next.done ensures Pending(next, m) {
      assert Pending(st, m);
    }
  }

  /** A row seen before leads back to the finished node it was seen from: skipping it is sound. */
  lemma SeenRowsLeadBack(g: Graph, start: string, bound: nat, st: Search, n: string, level: nat)
    requires WellFormed(g) && SearchFits(g, start, bound, st, {n}, level)
    requires n in st.depth && st.depth[n] == level
    requires forall id :: id in st.seen ==> SeenFrom(g, bound, st, {}, id)
    ensures SeenCovered(g, start, st, n, level + 1)
  {
    hide DoneFits, HitsFit, QueueFits;
    forall e, m | e in g.edges && e.id in st.seen && e.allowed && Joins(e, n, m)
      ensures Covered(g, start, st, n, m, level + 1)
    {
      assert SeenFrom(g, bound, st, {}, e.id);
      var f, k :| f in g.edges && f.id == e.id && Touches(f, k) && k in st.done;
      assert f == e && k == m;
    }
  }

  /** A Business Application at the far end of an unseen allowed row is a hit. */
  lemma HitKeepsFit(g: Graph, start: string, bound: nat, st: Search, level: nat, it: Item, e: Edge, m: string)
    requires SearchFits(g, start, bound, st, {it.node}, level) && SeenCovered(g, start, st, it.node, level + 1)
    requires it.node in st.depth && st.depth[it.node] == level == |it.path| < bound
              && PlainWalk(g, start, it.path, it.node)
    requires e in g.edges && e.allowed && e.id !in st.seen && Joins(e, it.node, m) && g.isApp(m)
    ensures var next := st.(hits := st.hits + [Hit(m, it.path + [Step(e, m)])]);
            SearchFits(g, start, bound, next, {it.node}, level) && SeenCovered(g, start, next, it.node, level + 1)
            && Covered(g, start, next, it.node, m, level + 1)
  {
    hide DoneFits, SeenFits, QueueFits, NodesFit, HitsFit, SeenCovered, PlainWalk;
    var hit := Hit(m, it.path + [Step(e, m)]);
    var next := st.(hits := st.hits + [hit]);
    assert HitFits(g, start, bound, hit) by {
      WalkExtends(g, start, it.path, it.node, Step(e, m));
      if m == start {
        StartIsFirst(g, start, bound, st, it.node, level, e);
      }
    }
    hide HitFits;
    assert next.hits[|st.hits|] == hit;
    CoverageGrows(g, start, st, next, it.node, level + 1);
    DoneGrows(g, start, bound, st, next);
    SeenGrows(g, bound, st, next, {it.node}, {it.node});
    HitKeepsTheRest(g, start, bound, st, {it.node}, level, hit);
  }

  lemma HitKeepsTheRest(g: Graph, start: string, bound: nat, st: Search, extra: set<string>, level: nat, hit: Hit)
    requires NodesFit(g, start, bound, st, extra, level) && QueueFits(g, start, bound, st, extra, level)
    requires HitsFit(g, start, bound, st, level) && HitFits(g, start, bound, hit) && |hit.path| == level + 1
    ensures var next := st.(hits := st.hits + [hit]);
            NodesFit(g, start, bound, next, extra, level) && QueueFits(g, start, bound, next, extra, level)
            && HitsFit(g, start, bound, next, level)
  {
    hide PlainWalk, HitFits, Nodes;
    var next := st.(hits := st.hits + [hit]);
    assert NodesFit(g, start, bound, next, extra, level) by {
      hide QueueFits, HitsFit;
      forall n | n in next.depth && n !in next.done && n !in extra ensures Pending(next, n) {
        assert Pending(st, n);
      }
    }
    hide NodesFit;
    assert HitsFit(g, start, bound, next, level) by {
      hide QueueFits;
    }
    hide HitsFit;
    forall i | 0 <= i < |next.queue| ensures ItemFits(g, start, bound, next, next.queue[i]) {
      assert ItemFits(g, start, bound, st, st.queue[i]);
    }
  }

  lemma WalkExtends(g: Graph, start: string, path: seq<Step>, n: string, s: Step)
    requires PlainWalk(g, start, path, n) && Hop(g, n, s)
    ensures Route(g, start, path + [s], s.to)
    ensures !g.isApp(s.to) ==> PlainWalk(g, start, path + [s], s.to)
  {
    hide Hop;
    var longer := path + [s];
    forall i | 0 <= i < |longer| ensures Hop(g, NodeAt(start, longer, i), longer[i]) {
      assert NodeAt(start, longer, i) == NodeAt(start, path, i);
      if i < |path| {
        assert Hop(g, NodeAt(start, path, i), path[i]);
      }
    }
  }

  /** An unseen row that reaches the start is found while the start itself is expanded. */
  lemma StartIsFirst(g: Graph, start: string, bound: nat, st: Search, n: string, level: nat, e: Edge)
    requires SearchFits(g, start, bound, st, {n}, level) && n in st.depth && st.depth[n] == level < bound
    requires e in g.edges && e.id !in st.seen && Joins(e, n, start)
    ensures n == start && level == 0
  {
    hide SeenCovered, HitsFit, SeenFits, PlainWalk;
    assert Touches(e, start);
    if n != start {
      StartIsDone(g, start, bound, st, n, level);
      assert false;
    }
  }

  /** Once another node is being expanded the start is finished, and every row at it has been seen. */
  lemma StartIsDone(g: Graph, start: string, bound: nat, st: Search, n: string, level: nat)
    requires SearchFits(g, start, bound, st, {n}, level) && n in st.depth && st.depth[n] == level < bound && n != start
    ensures start in st.done && AllSeen(g, st, start)
  {
    hide SeenCovered, HitsFit, SeenFits, PlainWalk, AllSeen;
    forall i | 0 <= i < |st.queue| ensures st.queue[i].node != start {
      assert ItemFits(g, start, bound, st, st.queue[i]);
    }
    assert !Pending(st, start);
    assert Explored(g, start, bound, st, start);
  }

  /** Any other new node at the far end of an allowed row is queued one level down. */
  lemma EnqueueKeepsFit(g: Graph, start: string, bound: nat, st: Search, level: nat, it: Item, e: Edge, m: string)
    requires SearchFits(g, start, bound, st, {it.node}, level) && SeenCovered(g, start, st, it.node, level + 1)
    requires it.node in st.depth && st.depth[it.node] == level == |it.path| < bound
              && PlainWalk(g, start, it.path, it.node)
    requires e in g.edges && e.allowed && Joins(e, it.node, m) && !g.isApp(m) && m !in st.depth
    ensures var next := st.(depth := st.depth[m := level + 1],
                            queue := st.queue + [Item(m, level + 1, it.path + [Step(e, m)])]);
            SearchFits(g, start, bound, next, {it.node}, level) && SeenCovered(g, start, next, it.node, level + 1)
            && Covered(g, start, next, it.node, m, level + 1)
  {
    hide DoneFits, SeenFits, QueueFits, NodesFit, HitsFit, SeenCovered, PlainWalk;
    var found := Item(m, level + 1, it.path + [Step(e, m)]);
    var next := st.(depth := st.depth[m := level + 1], queue := st.queue + [found]);
    WalkExtends(g, start, it.path, it.node, Step(e, m));
    CoverageGrows(g, start, st, next, it.node, level + 1);
    DoneGrows(g, start, bound, st, next);
    SeenGrows(g, bound, st, next, {it.node}, {it.node});
    assert HasWalk(g, start, m, level + 1);
    assert m in Nodes(g, start) by { assert e.parent == Some(m) || e.child == Some(m); }
    EnqueueKeepsNodes(g, start, bound, st, {it.node}, level, found);
    EnqueueIsNew(g, start, bound, st, {it.node}, level, m);
    EnqueueKeepsQueue(g, start, bound, st, {it.node}, level, found);
    HitsIgnoreTheQueue(g, start, bound, st, next, level);
  }

  lemma HitsIgnoreTheQueue(g: Graph, start: string, bound: nat, st: Search, next: Search, level: nat)
    requires HitsFit(g, start, bound, st, level) && next.hits == st.hits
    ensures HitsFit(g, start, bound, next, level)
  {
    hide HitFits;
  }

  lemma EnqueueIsNew(g: Graph, start: string, bound: nat, st: Search, extra: set<string>, level: nat, m: string)
    requires NodesFit(g, start, bound, st, extra, level) && m !in st.depth
    ensures m !in st.done
  {
  }

  lemma EnqueueKeepsNodes(g: Graph, start: string, bound: nat, st: Search, extra: set<string>, level: nat, found: Item)
    requires NodesFit(g, start, bound, st, extra, level) && found.node !in st.depth && found.depth == level + 1 <= bound
    requires !g.isApp(found.node) && found.node in Nodes(g, start) && HasWalk(g, start, found.node, found.depth)
    ensures NodesFit(g, start, bound, st.(depth := st.depth[found.node := found.depth], queue := st.queue + [found]),
              extra, level)
  {
    hide HasWalk;
    hide Nodes;
    var next := st.(depth := st.depth[found.node := found.depth], queue := st.queue + [found]);
    forall n | n in next.depth && n !in next.done && n !in extra ensures Pending(next, n) {
      if n == found.node {
        assert next.queue[|st.queue|].node == n;
      } else {
        assert Pending(st, n);
        var i :| 0 <= i < |st.queue| && st.queue[i].node == n;
        assert next.queue[i].node == n;
      }
    }
  }

  lemma EnqueueKeepsQueue(g: Graph, start: string, bound: nat, st: Search, extra: set<string>, level: nat, found: Item)
    requires QueueFits(g, start, bound, st, extra, level) && found.node !in st.depth && found.node !in st.done + extra
    requires PlainWalk(g, start, found.path, found.node) && |found.path| == found.depth == level + 1 <= bound
    ensures QueueFits(g, start, bound,
              st.(depth := st.depth[found.node := found.depth], queue := st.queue + [found]), extra, level)
  {
    hide PlainWalk;
    var next := st.(depth := st.depth[found.node := found.depth], queue := st.queue + [found]);
    forall i | 0 <= i < |next.queue|
      ensures ItemFits(g, start, bound, next, next.queue[i]) && next.queue[i].node !in extra
    {
      if i < |st.queue| {
        assert ItemFits(g, start, bound, st, st.queue[i]);
      }
    }
  }

  /** A row is marked seen once the node at its far end has been dealt with. */
  lemma MarkKeepsFit(g: Graph, start: string, bound: nat, st: Search, level: nat, n: string, e: Edge)
    requires WellFormed(g) && SearchFits(g, start, bound, st, {n}, level) && SeenCovered(g, start, st, n, level + 1)
    requires n in st.depth && st.depth[n] == level < bound
    requires e in g.edges && Touches(e, n) && e.id !in st.seen
    requires forall m :: e.allowed && Joins(e, n, m) ==> Covered(g, start, st, n, m, level + 1)
    ensures var next := st.(seen := st.seen + {e.id});
            SearchFits(g, start, bound, next, {n}, level) && SeenCovered(g, start, next, n, level + 1)
  {
    var next := st.(seen := st.seen + {e.id});
    hide PlainWalk, HitFits, Nodes;
    assert SeenCovered(g, start, next, n, level + 1) by {
      hide SearchFits;
      forall f, m | f in g.edges && f.id in next.seen && f.allowed && Joins(f, n, m)
        ensures Covered(g, start, next, n, m, level + 1)
      {
        assert f.id == e.id ==> f == e;
        assert Covered(g, start, st, n, m, level + 1);
        assert HasHit(st, m, level + 1) ==> HasHit(next, m, level + 1);
      }
    }
    forall k | k in next.done ensures Explored(g, start, bound, next, k) {
      assert Explored(g, start, bound, st, k);
      hide SearchFits;
      MarkKeepsExplored(g, start, bound, st, k, e);
    }
    hide SeenCovered, AllSeen, Explored;
    forall k | k in next.depth ensures k in next.done || k in {n} || Pending(next, k) {
      if k !in next.done && k != n {
        assert Pending(st, k);
      }
    }
    forall i | 0 <= i < |next.queue| ensures ItemFits(g, start, bound, next, next.queue[i]) {
      assert ItemFits(g, start, bound, st, st.queue[i]);
    }
    forall id | id in next.seen ensures SeenFrom(g, bound, next, {n}, id) {
      if id != e.id {
        assert SeenFrom(g, bound, st, {n}, id);
      }
    }
  }

  lemma MarkKeepsExplored(g: Graph, start: string, bound: nat, st: Search, k: string, e: Edge)
    requires WellFormed(g) && Explored(g, start, bound, st, k)
    requires e in g.edges && e.id !in st.seen
    ensures Explored(g, start, bound, st.(seen := st.seen + {e.id}), k)
  {
    var next := st.(seen := st.seen + {e.id});
    if st.depth[k] < bound {
      var d := st.depth[k] + 1;
      forall f, m | f in g.edges && f.id in next.seen && f.allowed && Joins(f, k, m)
        ensures Covered(g, start, next, k, m, d)
      {
        assert Touches(f, k);
        assert f.id in st.seen;
        assert Covered(g, start, st, k, m, d);
        assert HasHit(st, m, d) ==> HasHit(next, m, d);
      }
    }
  }

  // ---- with an empty queue the invariant is the specification ----

  lemma DrainedIsExplored(g: Graph, start: string, bound: nat, st: Search, level: nat, n: string)
    requires SearchFits(g, start, bound, st, {}, level) && st.queue == [] && n in st.depth
    ensures Explored(g, start, bound, st, n) && n in st.done
  {
    hide Explored;
    assert n in st.done || Pending(st, n);
  }

  lemma HopIsCovered(g: Graph, start: string, bound: nat, st: Search, n: string, s: Step)
    requires Explored(g, start, bound, st, n) && st.depth[n] < bound && Hop(g, n, s)
    ensures Covered(g, start, st, n, s.to, st.depth[n] + 1)
  {
    assert Touches(s.edge, n);
  }

  /** All of a walk but its last hop, when the stops before the last are no Business Applications. */
  lemma WalkShortens(g: Graph, start: string, path: seq<Step>)
    requires path != [] && Walk(g, start, path) && forall i :: 0 <= i < |path| - 1 ==> !g.isApp(path[i].to)
    ensures PlainWalk(g, start, path[..|path| - 1], NodeAt(start, path, |path| - 1))
    ensures Hop(g, NodeAt(start, path, |path| - 1), path[|path| - 1])
  {
    hide Hop;
    var before := path[..|path| - 1];
    forall i | 0 <= i < |before| ensures Hop(g, NodeAt(start, before, i), before[i]) {
      assert Hop(g, NodeAt(start, path, i), path[i]);
      assert before[i] == path[i] && NodeAt(start, before, i) == NodeAt(start, path, i);
    }
  }

  /** Every plain walk of a length within the bound ends at a node found no later. */
  lemma {:induction false} WalksAreFound(g: Graph, start: string, bound: nat, st: Search, level: nat,
                                         path: seq<Step>, n: string)
    requires SearchFits(g, start, bound, st, {}, level) && st.queue == []
    requires PlainWalk(g, start, path, n) && |path| <= bound
    ensures n in st.depth && st.depth[n] <= |path|
  {
    if path == [] {
    } else {
      var m := NodeAt(start, path, |path| - 1);
      WalkShortens(g, start, path);
      assert path[|path| - 1].to == n && !g.isApp(n);
      hide PlainWalk, Hop;
      WalksAreFound(g, start, bound, st, level, path[..|path| - 1], m);
      DrainedIsExplored(g, start, bound, st, level, m);
      hide SearchFits, Explored;
      HopIsCovered(g, start, bound, st, m, path[|path| - 1]);
    }
  }

  /** Every route to a Business Application, other than a longer one back to the start, has a hit at least as short. */
  lemma RoutesAreHit(g: Graph, start: string, bound: nat, st: Search, level: nat, path: seq<Step>, n: string)
    requires SearchFits(g, start, bound, st, {}, level) && st.queue == []
    requires Route(g, start, path, n) && |path| <= bound && g.isApp(n)
    requires n != start || |path| == 1
    ensures HasHit(st, n, |path|)
  {
    var m := NodeAt(start, path, |path| - 1);
    WalkShortens(g, start, path);
    WalksAreFound(g, start, bound, st, level, path[..|path| - 1], m);
    DrainedIsExplored(g, start, bound, st, level, m);
    hide SearchFits, Explored, PlainWalk, Hop;
    HopIsCovered(g, start, bound, st, m, path[|path| - 1]);
    assert HasHit(st, n, st.depth[m] + 1);
  }

  // ---- what the search promises ----

  /** The Business Applications the probe is to report; the start counts only through a row from it to itself. */
  ghost predicate Reported(g: Graph, start: string, bound: nat, n: string) {
    g.isApp(n) && ReachableIn(g, start, bound, n) && (n == start ==> SelfLoop(g, start))
  }

  /** The rows at the nodes fewer than `bound` plain hops away. */
  ghost function ExaminedRows(g: Graph, start: string, bound: nat): set<Edge> {
    set e | e in g.edges && exists n :: Touches(e, n) && ExpandedIn(g, start, bound, n)
  }

  ghost predicate IsHit(hits: seq<Hit>, n: string) {
    exists i :: 0 <= i < |hits| && hits[i].sysId == n
  }

  ghost predicate IsFirst(hits: seq<Hit>, i: nat)
    requires i < |hits|
  {
    forall j :: 0 <= j < i ==> hits[j].sysId != hits[i].sysId
  }

  /** The first hit for each node is by a shortest route. */
  ghost predicate FirstIsShortest(g: Graph, start: string, hits: seq<Hit>) {
    forall i, path ::
      0 <= i < |hits| && IsFirst(hits, i) && Route(g, start, path, hits[i].sysId) ==> |hits[i].path| <= |path|
  }

  lemma SelfLoopIsRoute(g: Graph, n: string) returns (path: seq<Step>)
    requires SelfLoop(g, n)
    ensures Route(g, n, path, n) && |path| == 1
  {
    var e :| e in g.edges && e.allowed && Joins(e, n, n);
    path := [Step(e, n)];
  }

  lemma HitsAreExact(g: Graph, start: string, bound: nat, st: Search, level: nat, n: string)
    requires SearchFits(g, start, bound, st, {}, level) && st.queue == []
    ensures IsHit(st.hits, n) <==> Reported(g, start, bound, n)
  {
    if i :| 0 <= i < |st.hits| && st.hits[i].sysId == n {
      hide NodesFit, QueueFits, DoneFits, SeenFits;
      assert HitFits(g, start, bound, st.hits[i]);
      var path := st.hits[i].path;
      if n == start {
        assert Hop(g, NodeAt(start, path, 0), path[0]);
        assert Joins(path[0].edge, start, start);
      }
    }
    if Reported(g, start, bound, n) {
      hide SearchFits;
      var path :| Route(g, start, path, n) && |path| <= bound;
      if n == start {
        path := SelfLoopIsRoute(g, start);
      }
      hide Route;
      RoutesAreHit(g, start, bound, st, level, path, n);
    }
  }

  lemma HitBounds(g: Graph, start: string, bound: nat, hit: Hit, path: seq<Step>)
    requires HitFits(g, start, bound, hit) && Route(g, start, path, hit.sysId)
    ensures g.isApp(hit.sysId) && |hit.path| <= bound && |path| >= 1 && (hit.sysId == start ==> |hit.path| == 1)
  {
  }

  lemma FirstHitsAreShortest(g: Graph, start: string, bound: nat, st: Search, level: nat)
    requires SearchFits(g, start, bound, st, {}, level) && st.queue == []
    ensures FirstIsShortest(g, start, st.hits)
  {
    hide NodesFit, QueueFits, DoneFits, SeenFits, Route, HitFits;
    forall i, path | 0 <= i < |st.hits| && IsFirst(st.hits, i) && Route(g, start, path, st.hits[i].sysId)
      ensures |st.hits[i].path| <= |path|
    {
      var n := st.hits[i].sysId;
      assert HitFits(g, start, bound, st.hits[i]);
      HitBounds(g, start, bound, st.hits[i], path);
      hide SearchFits, HitsFit;
      if n != start && |path| <= bound {
        RoutesAreHit(g, start, bound, st, level, path, n);
        var j :| 0 <= j < |st.hits| && st.hits[j].sysId == n && |st.hits[j].path| <= |path|;
        assert i <= j;
      }
    }
  }

  /** The rows counted are exactly those at the expanded nodes. */
  lemma SeenIsExact(g: Graph, start: string, bound: nat, st: Search, level: nat)
    requires WellFormed(g) && SearchFits(g, start, bound, st, {}, level) && st.queue == []
    ensures st.seen == set e | e in ExaminedRows(g, start, bound) :: e.id
  {
    forall id | id in st.seen ensures exists e :: e in ExaminedRows(g, start, bound) && e.id == id {
      hide QueueFits, HitsFit, DoneFits, HasWalk;
      assert SeenFrom(g, bound, st, {}, id);
      var e, n :| e in g.edges && e.id == id && Touches(e, n) && n in st.depth && st.depth[n] < bound;
      assert HasWalk(g, start, n, st.depth[n]);
      assert ExpandedIn(g, start, bound, n);
      assert e in ExaminedRows(g, start, bound);
    }
    forall e | e in ExaminedRows(g, start, bound) ensures e.id in st.seen {
      hide SearchFits, PlainWalk, SeenCovered;
      var n :| Touches(e, n) && ExpandedIn(g, start, bound, n);
      var length :| 0 <= length < bound && HasWalk(g, start, n, length);
      var path :| PlainWalk(g, start, path, n) && |path| == length;
      WalksAreFound(g, start, bound, st, level, path, n);
      DrainedIsExplored(g, start, bound, st, level, n);
      assert AllSeen(g, st, n);
    }
  }

  /** Distinct rows have distinct ids, so counting ids counts rows. */
  lemma {:induction false} IdsCountRows(g: Graph, rows: set<Edge>)
    requires WellFormed(g) && rows <= g.edges
    ensures |set e | e in rows :: e.id| == |rows|
  {
    if rows == {} {
    } else {
      var r :| r in rows;
      IdsCountRows(g, rows - {r});
      assert (set e | e in rows :: e.id) == (set e | e in rows - {r} :: e.id) + {r.id};
      assert r.id !in (set e | e in rows - {r} :: e.id);
    }
  }

  // ---- the search ----

  /** What looking at row `e`, found from `it` in direction `d`, does to the search. */
  ghost function Looked(g: Graph, st: Search, it: Item, d: Direction, e: Edge): Search {
    if e.id in st.seen then st
    else
      var marked := st.(seen := st.seen + {e.id});
      if !e.allowed || Far(e, d).None? then marked
      else
        var m := Far(e, d).value;
        var path := it.path + [Step(e, m)];
        if g.isApp(m) then marked.(hits := st.hits + [Hit(m, path)])
        else if m in st.depth then marked
        else marked.(depth := st.depth[m := it.depth + 1], queue := st.queue + [Item(m, it.depth + 1, path)])
  }

  /** The node being expanded, and what is known of it. */
  ghost predicate Expanding(g: Graph, start: string, bound: nat, st: Search, it: Item) {
    && SearchFits(g, start, bound, st, {it.node}, it.depth)
    && SeenCovered(g, start, st, it.node, it.depth + 1)
    && it.node in st.depth && st.depth[it.node] == it.depth == |it.path| < bound
    && PlainWalk(g, start, it.path, it.node)
  }

  lemma LookKeepsFit(g: Graph, start: string, bound: nat, st: Search, it: Item, d: Direction, e: Edge)
    requires WellFormed(g) && Expanding(g, start, bound, st, it)
    requires e in g.edges && Near(e, d) == Some(it.node)
    ensures Expanding(g, start, bound, Looked(g, st, it, d, e), it)
    ensures Looked(g, st, it, d, e).seen == st.seen + {e.id} && Looked(g, st, it, d, e).done == st.done
  {
    hide SearchFits, SeenCovered, PlainWalk, WellFormed;
    if e.id !in st.seen {
      var found := st;
      if e.allowed && Far(e, d).Some? {
        var m := Far(e, d).value;
        if g.isApp(m) {
          HitKeepsFit(g, start, bound, st, it.depth, it, e, m);
          found := st.(hits := st.hits + [Hit(m, it.path + [Step(e, m)])]);
        } else if m !in st.depth {
          EnqueueKeepsFit(g, start, bound, st, it.depth, it, e, m);
          found := st.(depth := st.depth[m := it.depth + 1],
                       queue := st.queue + [Item(m, it.depth + 1, it.path + [Step(e, m)])]);
        } else {
          VisitedIsCovered(g, start, bound, st, it, m);
        }
      }
      MarkKeepsFit(g, start, bound, found, it.depth, it.node, e);
    } else {
      assert st.seen == st.seen + {e.id};
    }
  }

  lemma VisitedIsCovered(g: Graph, start: string, bound: nat, st: Search, it: Item, m: string)
    requires SearchFits(g, start, bound, st, {it.node}, it.depth) && m in st.depth && !g.isApp(m)
    ensures Covered(g, start, st, it.node, m, it.depth + 1)
  {
    hide QueueFits, DoneFits, HitsFit, SeenFits, HasWalk;
  }

  /** Row ids among the first `i` of `rows` have been seen. */
  ghost predicate SeenUpTo(rows: seq<Edge>, i: nat, seen: set<string>)
    requires i <= |rows|
  {
    forall k :: 0 <= k < i ==> rows[k].id in seen
  }

  lemma ExpandedIsExplored(g: Graph, start: string, bound: nat, st: Search, it: Item)
    requires WellFormed(g) && Expanding(g, start, bound, st, it)
    requires SeenUpTo(g.rows(it.node, Parent), |g.rows(it.node, Parent)|, st.seen)
    requires SeenUpTo(g.rows(it.node, Child), |g.rows(it.node, Child)|, st.seen)
    ensures Explored(g, start, bound, st, it.node)
  {
    hide SearchFits, SeenCovered, PlainWalk;
    forall e | e in g.edges && Touches(e, it.node) ensures e.id in st.seen {
      var d := if e.parent == Some(it.node) then Parent else Child;
      var rows := g.rows(it.node, d);
      assert SeenUpTo(rows, |rows|, st.seen);
      assert e in rows;
    }
  }

  lemma BeginExpanding(g: Graph, start: string, bound: nat, st: Search, level: nat)
    requires WellFormed(g) && SearchFits(g, start, bound, st, {}, level) && st.queue != []
    requires st.queue[0].depth < bound
    ensures Expanding(g, start, bound, st.(queue := st.queue[1..]), st.queue[0])
  {
    hide NodesFit, QueueFits, HitsFit, DoneFits, PlainWalk, WellFormed, SeenCovered, SeenFits;
    var next, it := st.(queue := st.queue[1..]), st.queue[0];
    PopFits(g, start, bound, st, level);
    SeenGrows(g, bound, st, next, {}, {});
    SeenIsFrom(g, bound, next);
    SeenRowsLeadBack(g, start, bound, next, it.node, it.depth);
  }

  lemma SeenIsFrom(g: Graph, bound: nat, st: Search)
    requires SeenFits(g, bound, st, {})
    ensures forall id :: id in st.seen ==> SeenFrom(g, bound, st, {}, id)
  {
  }

  lemma PoppedIsNew(g: Graph, start: string, bound: nat, st: Search, level: nat)
    requires SearchFits(g, start, bound, st, {}, level) && st.queue != []
    ensures st.queue[0].node in Nodes(g, start) - st.done
  {
    hide Nodes, HasWalk, PlainWalk, DoneFits, SeenFits, HitsFit;
    assert ItemFits(g, start, bound, st, st.queue[0]);
    assert start in Nodes(g, start) by { StartIsANode(g, start); }
  }

  lemma StartIsANode(g: Graph, start: string)
    ensures start in Nodes(g, start)
  {
  }

  lemma FewerRemain(nodes: set<string>, done: set<string>, n: string)
    requires n in nodes - done
    ensures |nodes - (done + {n})| < |nodes - done|
  {
    assert nodes - done == nodes - (done + {n}) + {n};
  }

  lemma HitsAllFit(g: Graph, start: string, bound: nat, st: Search, level: nat)
    requires SearchFits(g, start, bound, st, {}, level)
    ensures forall i :: 0 <= i < |st.hits| ==> HitFits(g, start, bound, st.hits[i])
  {
  }

  /** With nothing left to expand, what has been found is what was asked for. */
  lemma DrainedIsExact(g: Graph, start: string, bound: nat, st: Search, level: nat)
    requires WellFormed(g) && SearchFits(g, start, bound, st, {}, level) && st.queue == []
    ensures forall n :: IsHit(st.hits, n) <==> Reported(g, start, bound, n)
    ensures forall i :: 0 <= i < |st.hits| ==> HitFits(g, start, bound, st.hits[i])
    ensures FirstIsShortest(g, start, st.hits)
    ensures |st.seen| == |ExaminedRows(g, start, bound)|
  {
    hide WellFormed, Reported, IsHit, FirstIsShortest, HitFits;
    HitsAllFit(g, start, bound, st, level);
    hide SearchFits;
    forall n ensures IsHit(st.hits, n) <==> Reported(g, start, bound, n) {
      HitsAreExact(g, start, bound, st, level, n);
    }
    FirstHitsAreShortest(g, start, bound, st, level);
    SeenIsExact(g, start, bound, st, level);
    IdsCountRows(g, ExaminedRows(g, start, bound));
  }

  /** The local variables of the search stand for the search `st`. */
  ghost predicate Mirrors(st: Search, queue: seq<Item>, visited: set<string>, seen: set<string>, rows: nat,
                           hits: seq<Hit>)
  {
    st.queue == queue && st.depth.Keys == visited && st.seen == seen && st.hits == hits && |seen| == rows
  }

  /** One row, with the variables it may change passed in and out. */
  method ExamineRow(
    g: Graph, it: Item, d: Direction, e: Edge, queue0: seq<Item>, visited0: set<string>, seen0: set<string>, rows0: nat,
    hits0: seq<Hit>, ghost st: Search)
    returns (queue: seq<Item>, visited: set<string>, seen: set<string>, rows: nat, hits: seq<Hit>)
    requires Mirrors(st, queue0, visited0, seen0, rows0, hits0)
    ensures Mirrors(Looked(g, st, it, d, e), queue, visited, seen, rows, hits)
  {
    queue, visited, seen, rows, hits := queue0, visited0, seen0, rows0, hits0;
    if e.id in seen {
      return;
    }
    seen := seen + {e.id};
    rows := rows + 1;
    if !e.allowed || Far(e, d).None? {
      return;
    }
    var m := Far(e, d).value;
    var path := it.path + [Step(e, m)];
    if g.isApp(m) {
      hits := hits + [Hit(m, path)];
    } else if m !in visited {
      visited := visited + {m};
      queue := queue + [Item(m, it.depth + 1, path)];
    }
  }

  /** The breadth-first search for Business Applications around `start`; `bound` is the hop limit. */
  method ReverseRelationshipHits(g: Graph, start: string, bound: nat) returns (rowsExamined: nat, hits: seq<Hit>)
    requires WellFormed(g)
    ensures forall n :: IsHit(hits, n) <==> Reported(g, start, bound, n)
    ensures forall i :: 0 <= i < |hits| ==> HitFits(g, start, bound, hits[i])
    ensures FirstIsShortest(g, start, hits)
    ensures rowsExamined == |ExaminedRows(g, start, bound)|
  {
    hide SearchFits, SeenCovered, PlainWalk, Reported, HitFits, FirstIsShortest, ExaminedRows, Nodes, AllSeen, Near;
    hide Looked, IsHit;
    hide WellFormed, Joins;
    var queue := [Item(start, 0, [])];
    var visited := {start};
    var seen: set<string> := {};
    rowsExamined, hits := 0, [];
    ghost var st := Search(queue, map[start := 0], {}, [], {});
    ghost var level: nat := 0;
    StartFits(g, start, bound);
    while queue != []
      invariant Mirrors(st, queue, visited, seen, rowsExamined, hits)
      invariant SearchFits(g, start, bound, st, {}, level)
      decreases |Nodes(g, start) - st.done|
    {
      var it := queue[0];
      queue := queue[1..];
      ghost var done := st.done;
      PoppedIsNew(g, start, bound, st, level);
      FewerRemain(Nodes(g, start), done, it.node);
      PopFits(g, start, bound, st, level);
      if it.depth < bound {
        BeginExpanding(g, start, bound, st, level);
        st := st.(queue := queue);
        queue, visited, seen, rowsExamined, hits, st :=
          Expand(g, start, bound, it, queue, visited, seen, rowsExamined, hits, st);
      } else {
        st := st.(queue := queue);
      }
      level := it.depth;
      FinishFits(g, start, bound, st, it.node, level);
      st := st.(done := st.done + {it.node});
    }
    DrainedIsExact(g, start, bound, st, level);
  }

  /** Both neighbour queries of one node. */
  method Expand(
    g: Graph, start: string, bound: nat, it: Item, queue0: seq<Item>, visited0: set<string>, seen0: set<string>,
    rows0: nat, hits0: seq<Hit>, ghost st0: Search)
    returns (queue: seq<Item>, visited: set<string>, seen: set<string>, rows: nat, hits: seq<Hit>, ghost st: Search)
    requires WellFormed(g) && Expanding(g, start, bound, st0, it)
    requires Mirrors(st0, queue0, visited0, seen0, rows0, hits0)
    ensures Mirrors(st, queue, visited, seen, rows, hits)
    ensures SearchFits(g, start, bound, st, {it.node}, it.depth)
    ensures Explored(g, start, bound, st, it.node) && st.depth[it.node] == it.depth && st.done == st0.done
  {
    hide SearchFits, SeenCovered, PlainWalk, Looked, AllSeen;
    queue, visited, seen, rows, hits, st := queue0, visited0, seen0, rows0, hits0, st0;
    var directions := [Parent, Child];
    for k := 0 to 2
      invariant Mirrors(st, queue, visited, seen, rows, hits) && st.done == st0.done
      invariant Expanding(g, start, bound, st, it)
      invariant forall j :: 0 <= j < k ==>
                  SeenUpTo(g.rows(it.node, directions[j]), |g.rows(it.node, directions[j])|, seen)
    {
      var records := g.rows(it.node, directions[k]);
      for i := 0 to |records|
        invariant Mirrors(st, queue, visited, seen, rows, hits) && st.done == st0.done
        invariant Expanding(g, start, bound, st, it)
        invariant SeenUpTo(records, i, seen)
        invariant forall j :: 0 <= j < k ==>
                    SeenUpTo(g.rows(it.node, directions[j]), |g.rows(it.node, directions[j])|, seen)
      {
        assert records[i] in g.rows(it.node, directions[k]);
        LookKeepsFit(g, start, bound, st, it, directions[k], records[i]);
        queue, visited, seen, rows, hits :=
          ExamineRow(g, it, directions[k], records[i], queue, visited, seen, rows, hits, st);
        st := Looked(g, st, it, directions[k], records[i]);
      }
    }
    assert directions[0] == Parent && directions[1] == Child;
    ExpandedIsExplored(g, start, bound, st, it);
  }

  // ---- what row de-duplication can lose ----

  ghost predicate HasPlainNeighbour(g: Graph, n: string) {
    exists e, m :: e in g.edges && e.allowed && Joins(e, n, m) && !g.isApp(m)
  }

  /** The only Business Application ever lost is a start without a self-loop that has an allowed row to a plain node. */
  lemma DedupLosesOnlyTheStart(g: Graph, start: string, bound: nat)
    ensures (forall n :: g.isApp(n) && ReachableIn(g, start, bound, n) ==> Reported(g, start, bound, n))
       <==> !(g.isApp(start) && !SelfLoop(g, start) && bound >= 2 && HasPlainNeighbour(g, start))
  {
    if g.isApp(start) && bound >= 2 && HasPlainNeighbour(g, start) {
      var e, m :| e in g.edges && e.allowed && Joins(e, start, m) && !g.isApp(m);
      ThereAndBack(g, start, e, m);
      assert ReachableIn(g, start, bound, start);
    }
    forall n | g.isApp(n) && ReachableIn(g, start, bound, n) && !Reported(g, start, bound, n)
      ensures bound >= 2 && HasPlainNeighbour(g, start)
    {
      var path: seq<Step> :| Route(g, start, path, n) && |path| <= bound;
      assert Hop(g, NodeAt(start, path, 0), path[0]);
      assert Joins(path[0].edge, start, path[0].to);
    }
  }

  lemma ThereAndBack(g: Graph, start: string, e: Edge, m: string)
    requires e in g.edges && e.allowed && Joins(e, start, m) && !g.isApp(m)
    ensures Route(g, start, [Step(e, m), Step(e, start)], start)
  {
    var path := [Step(e, m), Step(e, start)];
    assert Hop(g, NodeAt(start, path, 0), path[0]);
    assert Hop(g, NodeAt(start, path, 1), path[1]);
  }

  /** Two nodes and one row: the start is a Business Application two hops from itself, and is not reported. */
  lemma StartCanBeLost() returns (g: Graph)
    ensures WellFormed(g) && g.isApp("app") && ReachableIn(g, "app", 2, "app") && !Reported(g, "app", 2, "app")
  {
    var e := Edge("row", Some("app"), Some("host"), true);
    g := Graph({e}, (n, d) => if Near(e, d) == Some(n) then [e] else [], n => n == "app");
    ThereAndBack(g, "app", e, "host");
  }

  // ---- merging with the service-membership hits ----

  /** A service-membership hit, with its path labels. */
  datatype ServiceHit = ServiceHit(sysId: string, labels: seq<string>)

  /** A reported application: found through relationship rows, perhaps also a service, or a service alone. */
  datatype Application = Direct(path: seq<Step>, member: bool) | Member(labels: seq<string>)

  ghost predicate Serves(service: seq<ServiceHit>, n: string) {
    exists j :: 0 <= j < |service| && service[j].sysId == n
  }

  /** `path` is that of the first hit for `n`. */
  ghost predicate FirstPath(hits: seq<Hit>, n: string, path: seq<Step>) {
    exists i :: 0 <= i < |hits| && IsFirst(hits, i) && hits[i].sysId == n && hits[i].path == path
  }

  /** `labels` are those of the first service hit for `n`. */
  ghost predicate FirstLabels(service: seq<ServiceHit>, n: string, labels: seq<string>) {
    exists j :: 0 <= j < |service| && !Serves(service[..j], n) && service[j].sysId == n && service[j].labels == labels
  }

  /** The direct hits, the first for each application. */
  method KeepFirst(direct: seq<Hit>) returns (found: map<string, seq<Step>>)
    ensures forall n :: n in found <==> IsHit(direct, n)
    ensures forall n :: n in found ==> FirstPath(direct, n, found[n])
  {
    found := map[];
    for i := 0 to |direct|
      invariant forall n :: n in found ==> FirstPath(direct, n, found[n])
      invariant forall k :: 0 <= k < i ==> direct[k].sysId in found
    {
      if direct[i].sysId !in found {
        found := found[direct[i].sysId := direct[i].path];
        assert IsFirst(direct, i);
      }
    }
    forall n | n in found ensures IsHit(direct, n) {
      assert FirstPath(direct, n, found[n]);
    }
  }

  /** A service hit only marks an application already there, and is kept when it is the first word of one. */
  method AddServices(found: map<string, seq<Step>>, service: seq<ServiceHit>) returns (merged: map<string, Application>)
    ensures forall n :: n in merged <==> n in found || Serves(service, n)
    ensures forall n :: n in found ==> merged[n] == Direct(found[n], Serves(service, n))
    ensures forall n :: n in merged && n !in found ==> merged[n].Member? && FirstLabels(service, n, merged[n].labels)
  {
    merged := map n | n in found :: Direct(found[n], false);
    for j := 0 to |service|
      invariant forall n :: n in merged <==> n in found || Serves(service[..j], n)
      invariant forall n :: n in found ==> merged[n] == Direct(found[n], Serves(service[..j], n))
      invariant forall n :: n in merged && n !in found ==>
                  merged[n].Member? && FirstLabels(service, n, merged[n].labels)
    {
      var hit := service[j];
      ServesNext(service, j);
      hide Serves;
      if hit.sysId !in merged {
        merged := merged[hit.sysId := Member(hit.labels)];
        assert FirstLabels(service, hit.sysId, hit.labels);
      } else if merged[hit.sysId].Direct? {
        merged := merged[hit.sysId := Direct(merged[hit.sysId].path, true)];
      }
    }
    assert service[..|service|] == service;
  }

  lemma ServesNext(service: seq<ServiceHit>, j: nat)
    requires j < |service|
    ensures forall n :: Serves(service[..j + 1], n) <==> Serves(service[..j], n) || n == service[j].sysId
  {
    forall n ensures Serves(service[..j + 1], n) <==> Serves(service[..j], n) || n == service[j].sysId {
      if k :| 0 <= k < j && service[..j][k].sysId == n {
        assert service[..j + 1][k].sysId == n;
      }
      if Serves(service[..j + 1], n) {
        var k :| 0 <= k < j + 1 && service[..j + 1][k].sysId == n;
        assert k < j ==> service[..j][k].sysId == n;
      }
      assert service[..j + 1][j] == service[j];
    }
  }

  ghost predicate IsShortest(g: Graph, start: string, path: seq<Step>, n: string) {
    Route(g, start, path, n) && forall other :: Route(g, start, other, n) ==> |path| <= |other|
  }

  /** The probe of one server: every application within two hops once, by a shortest route. */
  method ProbeServer(g: Graph, server: string, service: seq<ServiceHit>)
    returns (rowsExamined: nat, merged: map<string, Application>)
    requires WellFormed(g)
    ensures rowsExamined == |ExaminedRows(g, server, 2)|
    ensures forall n :: n in merged <==> Reported(g, server, 2, n) || Serves(service, n)
    ensures forall n :: n in merged ==> (merged[n].Direct? <==> Reported(g, server, 2, n))
    ensures forall n :: n in merged && merged[n].Direct? ==>
              IsShortest(g, server, merged[n].path, n) && (merged[n].member <==> Serves(service, n))
    ensures forall n :: n in merged && merged[n].Member? ==> FirstLabels(service, n, merged[n].labels)
  {
    hide WellFormed, Reported, ExaminedRows, Route, Serves, FirstLabels;
    var hits;
    rowsExamined, hits := ReverseRelationshipHits(g, server, MAX_DEPTH);
    var found := KeepFirst(hits);
    merged := AddServices(found, service);
    forall n | n in found ensures IsShortest(g, server, found[n], n) {
      assert FirstPath(hits, n, found[n]);
      var i :| 0 <= i < |hits| && IsFirst(hits, i) && hits[i].sysId == n && hits[i].path == found[n];
      assert HitFits(g, server, MAX_DEPTH, hits[i]);
    }
  }
}
