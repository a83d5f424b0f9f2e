/** A* over the four-neighbour grid, with lazy deletion, a closed set, a parent table
    and a budget on expanded cells. */
module Pathfinder {
  import opened Grid

  const MAX_NODES: nat := 25

  // ------------------------------------------------------------------ routes

  /** `p` is a walk that leaves `s` and stays on walkable tiles; `s` itself is not listed. */
  ghost predicate Route(t: Terrain, s: Pos, p: seq<Pos>)
    decreases |p|
  {
    p == [] || (Route(t, s, Front(p)) && t.Walkable(Last(p)) && Adjacent(End(s, Front(p)), Last(p)))
  }

  function Front(p: seq<Pos>): seq<Pos>
    requires p != []
  {
    p[..|p| - 1]
  }

  function Last(p: seq<Pos>): Pos
    requires p != []
  {
    p[|p| - 1]
  }

  function End(s: Pos, p: seq<Pos>): Pos {
    if p == [] then s else Last(p)
  }

  ghost predicate RouteTo(t: Terrain, s: Pos, c: Pos, p: seq<Pos>) {
    Route(t, s, p) && End(s, p) == c
  }

  /** `c` is at most `k` steps away from `s`. */
  ghost predicate Within(t: Terrain, s: Pos, c: Pos, k: int) {
    exists p :: RouteTo(t, s, c, p) && |p| <= k
  }

  ghost predicate IsDistance(t: Terrain, s: Pos, c: Pos, k: nat) {
    Within(t, s, c, k) && !Within(t, s, c, k - 1)
  }

  /** The cells, other than the goal, whose distance from the start plus Manhattan
      distance to the goal is at most `bound`. */
  ghost function Ellipse(t: Terrain, s: Pos, goal: Pos, bound: int): set<Pos> {
    set x, y | 0 <= x < t.width && 0 <= y < t.height && Pos(x, y) != goal
      && Within(t, s, Pos(x, y), bound - Manhattan(Pos(x, y), goal)) :: Pos(x, y)
  }

  // ------------------------------------------------------------- search state

  datatype Node = Node(pos: Pos, g: int, f: int, parent: int)

  /** The queue's ordering: `a` comes out after `b`. */
  predicate Worse(a: Node, b: Node) {
    if a.f != b.f then a.f > b.f else a.g < b.g
  }

  predicate Linked(t: Terrain, nodes: seq<Node>, n: Node) {
    && 0 <= n.parent < |nodes|
    && t.Walkable(n.pos)
    && Adjacent(nodes[n.parent].pos, n.pos)
    && n.g == nodes[n.parent].g + 1
  }

  predicate Scored(goal: Pos, n: Node) {
    n.f == n.g + Manhattan(n.pos, goal)
  }

  /** The parent table: the start first, then nodes each one step from an earlier one. */
  ghost predicate Table(t: Terrain, start: Pos, goal: Pos, nodes: seq<Node>) {
    && |nodes| > 0
    && nodes[0] == Node(start, 0, Manhattan(start, goal), -1)
    && t.InMap(start)
    && forall i :: 0 < i < |nodes| ==>
         nodes[i].parent < i && Linked(t, nodes, nodes[i]) && Scored(goal, nodes[i])
  }

  /** The cells a node's parent chain passes, start excluded. */
  function Chain(t: Terrain, start: Pos, goal: Pos, nodes: seq<Node>, i: int): (p: seq<Pos>)
    requires Table(t, start, goal, nodes) && 0 <= i < |nodes|
    decreases i
  {
    if i == 0 then [] else Chain(t, start, goal, nodes, nodes[i].parent) + [nodes[i].pos]
  }

  /** A parent chain is a route of exactly g steps, and g never exceeds the table index. */
  lemma {:induction false} ChainIsRoute(t: Terrain, start: Pos, goal: Pos, nodes: seq<Node>, i: int)
    requires Table(t, start, goal, nodes) && 0 <= i < |nodes|
    ensures RouteTo(t, start, nodes[i].pos, Chain(t, start, goal, nodes, i))
    ensures |Chain(t, start, goal, nodes, i)| == nodes[i].g <= i
    decreases i
  {
    if i > 0 {
      var p := Chain(t, start, goal, nodes, nodes[i].parent);
      ChainIsRoute(t, start, goal, nodes, nodes[i].parent);
      assert Front(p + [nodes[i].pos]) == p;
    }
  }

  ghost predicate Shortest(t: Terrain, start: Pos, n: Node) {
    forall p :: RouteTo(t, start, n.pos, p) ==> n.g <= |p|
  }

  ghost predicate Offered(open: multiset<Node>, c: Pos, g: int) {
    exists e :: e in open && e.pos == c && e.g <= g
  }

  /** The first `n` table entries are the closed cells, each with its true distance;
      `at` gives the table index of each closed cell. */
  ghost predicate Settled(t: Terrain, start: Pos, goal: Pos, nodes: seq<Node>, n: nat,
                          closed: set<int>, at: map<Pos, int>)
  {
    && |nodes| == (if n == 0 then 1 else n)
    && |at| == n
    && (forall c :: c in at ==> 0 <= at[c] < n && nodes[at[c]].pos == c)
    && (forall i :: 0 <= i < n ==> nodes[i].pos in at && nodes[i].pos != goal && Shortest(t, start, nodes[i]))
    && (forall c :: t.InMap(c) ==> (t.Index(c) in closed <==> c in at))
  }

  /** Every queued node is the start or one step from a table entry. */
  ghost predicate Queued(t: Terrain, goal: Pos, nodes: seq<Node>, n: nat, open: multiset<Node>)
    requires |nodes| > 0
  {
    && (forall e :: e in open ==> Scored(goal, e) && (e == nodes[0] || Linked(t, nodes, e)))
    && (n == 0 ==> forall e :: e in open ==> e == nodes[0])
  }

  /** Every way out of the closed cells is queued, at no more than one step beyond its closed end. */
  ghost predicate Frontier(t: Terrain, nodes: seq<Node>, n: nat, open: multiset<Node>, at: map<Pos, int>)
    requires 0 < |nodes| && n <= |nodes|
  {
    && (nodes[0].pos in at || nodes[0] in open)
    && (forall i, d :: 0 <= i < n && 0 <= d < 4 ==> Covered(t, nodes[i], d, open, at))
  }

  ghost predicate Covered(t: Terrain, from: Node, d: int, open: multiset<Node>, at: map<Pos, int>)
    requires 0 <= d < 4
  {
    var c := Step(from.pos, d);
    t.Walkable(c) && c !in at ==> Offered(open, c, from.g + 1)
  }

  /** Everything the search knows after expanding the first `n` table entries. */
  ghost predicate Search(t: Terrain, start: Pos, goal: Pos, nodes: seq<Node>, n: nat,
                         open: multiset<Node>, closed: set<int>, at: map<Pos, int>)
  {
    && Table(t, start, goal, nodes)
    && Settled(t, start, goal, nodes, n, closed, at)
    && Queued(t, goal, nodes, n, open)
    && Frontier(t, nodes, n, open, at)
  }

  lemma AdjacentIsStep(a: Pos, b: Pos) returns (d: int)
    requires Adjacent(a, b)
    ensures 0 <= d < 4 && Step(a, d) == b
  {
    d := if b.x == a.x then (if b.y < a.y then 0 else 1) else (if b.x < a.x then 2 else 3);
  }

  /** Heart of the optimality proof: as long as the end of a route is not closed, the queue holds
      a node whose f is at most the route's length plus the Manhattan distance that remains. */
  lemma {:induction false} OpenOnRoute(t: Terrain, start: Pos, goal: Pos, nodes: seq<Node>, n: nat,
                    open: multiset<Node>, closed: set<int>, at: map<Pos, int>, p: seq<Pos>) returns (e: Node)
    requires Search(t, start, goal, nodes, n, open, closed, at)
    requires Route(t, start, p) && End(start, p) !in at
    ensures e in open && e.f <= |p| + Manhattan(End(start, p), goal)
    decreases |p|
  {
    if p == [] {
      e := nodes[0];
    } else {
      var q := Front(p);
      var c := End(start, q);
      if c !in at {
        e := OpenOnRoute(t, start, goal, nodes, n, open, closed, at, q);
      } else {
        var d := AdjacentIsStep(c, End(start, p));
        assert RouteTo(t, start, nodes[at[c]].pos, q);
        assert Covered(t, nodes[at[c]], d, open, at);
        e :| e in open && e.pos == End(start, p) && e.g <= nodes[at[c]].g + 1;
      }
    }
  }

  /** A node that is best in the queue is no worse than any unclosed cell's best route. */
  lemma BestBounds(t: Terrain, start: Pos, goal: Pos, nodes: seq<Node>, n: nat,
                   open: multiset<Node>, closed: set<int>, at: map<Pos, int>, best: Node, c: Pos)
    requires Search(t, start, goal, nodes, n, open, closed, at)
    requires forall e :: e in open ==> !Worse(best, e)
    requires c !in at
    ensures forall p :: RouteTo(t, start, c, p) ==> best.f <= |p| + Manhattan(c, goal)
  {
    forall p | RouteTo(t, start, c, p)
      ensures best.f <= |p| + Manhattan(c, goal)
    {
      var e := OpenOnRoute(t, start, goal, nodes, n, open, closed, at, p);
      assert !Worse(best, e);
    }
  }

  // ---------------------------------------------------------- one expansion

  /** The node FindPath pushes for the neighbour of `from` in direction `d`. */
  function Neighbour(goal: Pos, from: Node, index: int, d: int): Node
    requires 0 <= d < 4
  {
    var c := Step(from.pos, d);
    Node(c, from.g + 1, from.g + 1 + Manhattan(c, goal), index)
  }

  predicate Pushed(t: Terrain, goal: Pos, from: Node, index: int, closed: set<int>, d: int)
    requires 0 <= d < 4
  {
    var c := Step(from.pos, d);
    t.Walkable(c) && t.Index(c) !in closed
  }

  /** `open` plus the walkable, unclosed neighbours of `from` in the first `k` directions. */
  function WithNeighbours(t: Terrain, goal: Pos, from: Node, index: int, closed: set<int>,
                          open: multiset<Node>, k: nat): multiset<Node>
    requires k <= 4
  {
    if k == 0 then open
    else
      WithNeighbours(t, goal, from, index, closed, open, k - 1)
      + if Pushed(t, goal, from, index, closed, k - 1) then multiset{Neighbour(goal, from, index, k - 1)} else multiset{}
  }

  lemma {:induction false} WithNeighboursMembers(t: Terrain, goal: Pos, from: Node, index: int, closed: set<int>,
                                                 open: multiset<Node>, k: nat)
    requires k <= 4
    ensures var grown := WithNeighbours(t, goal, from, index, closed, open, k);
      && (forall e :: e in open ==> e in grown)
      && (forall d :: 0 <= d < k && Pushed(t, goal, from, index, closed, d) ==> Neighbour(goal, from, index, d) in grown)
      && (forall e :: e in grown && e !in open ==>
            exists d :: 0 <= d < k && Pushed(t, goal, from, index, closed, d) && e == Neighbour(goal, from, index, d))
  {
    hide Pushed, Neighbour;
    if k > 0 {
      WithNeighboursMembers(t, goal, from, index, closed, open, k - 1);
    }
  }

  method PushNeighbours(t: Terrain, goal: Pos, from: Node, index: int, closed: set<int>, open: multiset<Node>)
    returns (grown: multiset<Node>)
    ensures grown == WithNeighbours(t, goal, from, index, closed, open, 4)
  {
    grown := open;
    for d := 0 to 4
      invariant grown == WithNeighbours(t, goal, from, index, closed, open, d)
    {
      var c := Step(from.pos, d);
      if !t.Walkable(c) {
        continue;
      }
      if t.Index(c) in closed {
        continue;
      }
      grown := grown + multiset{Node(c, from.g + 1, from.g + 1 + Manhattan(c, goal), index)};
    }
  }

  /** Scans the parent table from the back for the popped node. */
  method FindIndex(nodes: seq<Node>, current: Node) returns (index: int)
    ensures index == -1 ==> forall i :: 0 <= i < |nodes| ==> nodes[i].pos != current.pos || nodes[i].g != current.g
    ensures index != -1 ==> 0 <= index < |nodes| && nodes[index].pos == current.pos && nodes[index].g == current.g
  {
    index := |nodes| - 1;
    while index >= 0
      invariant -1 <= index < |nodes|
      invariant forall i :: index < i < |nodes| ==> nodes[i].pos != current.pos || nodes[i].g != current.g
    {
      if nodes[index].pos == current.pos && nodes[index].g == current.g {
        return;
      }
      index := index - 1;
    }
  }

  /** A nonempty queue has a node none of the others beats. */
  lemma {:induction false} BestExists(open: multiset<Node>) returns (best: Node)
    requires |open| > 0
    ensures best in open && forall e :: e in open ==> !Worse(best, e)
    decreases |open|
  {
    var x :| x in open;
    var rest := open - multiset{x};
    var b := x;
    if |rest| > 0 {
      b := BestExists(rest);
    }
    best := if Worse(x, b) then b else x;
    forall e | e in open ensures !Worse(best, e) {
      assert e == x || e in rest;
    }
  }

  lemma PopKeepsOffer(open: multiset<Node>, current: Node, c: Pos, g: int)
    requires Offered(open, c, g) && current.pos != c
    ensures Offered(open - multiset{current}, c, g)
  {
    var e :| e in open && e.pos == c && e.g <= g;
    assert e in open - multiset{current};
  }

  lemma PopKeepsFrontier(t: Terrain, nodes: seq<Node>, n: nat, open: multiset<Node>, at: map<Pos, int>, current: Node)
    requires 0 < |nodes| && n <= |nodes| && Frontier(t, nodes, n, open, at)
    requires current.pos in at
    ensures Frontier(t, nodes, n, open - multiset{current}, at)
  {
    var rest := open - multiset{current};
    forall i, d | 0 <= i < n && 0 <= d < 4
      ensures Covered(t, nodes[i], d, rest, at)
    {
      var c := Step(nodes[i].pos, d);
      assert Covered(t, nodes[i], d, open, at);
      if t.Walkable(c) && c !in at {
        PopKeepsOffer(open, current, c, nodes[i].g + 1);
      }
    }
  }

  /** Dropping a node whose cell is already closed loses nothing. */
  lemma SkipKeepsSearch(t: Terrain, start: Pos, goal: Pos, nodes: seq<Node>, n: nat,
                        open: multiset<Node>, closed: set<int>, at: map<Pos, int>, current: Node)
    requires Search(t, start, goal, nodes, n, open, closed, at)
    requires current in open && current.pos in at
    ensures Search(t, start, goal, nodes, n, open - multiset{current}, closed, at)
  {
    PopKeepsFrontier(t, nodes, n, open, at, current);
    assert forall e :: e in open - multiset{current} ==> e in open;
  }

  /** Where the popped node sits in the parent table after the lookup: always at the end of the
      expanded prefix. Only the start is found there beforehand. */
  lemma PoppedIndex(t: Terrain, start: Pos, goal: Pos, nodes: seq<Node>, n: nat,
                    open: multiset<Node>, closed: set<int>, at: map<Pos, int>, current: Node)
    requires Search(t, start, goal, nodes, n, open, closed, at)
    requires current in open && current.pos !in at
    ensures n == 0 ==> current == nodes[0]
    ensures n > 0 ==> current != nodes[0] && Linked(t, nodes, current)
    ensures n > 0 ==> forall i :: 0 <= i < |nodes| ==> nodes[i].pos != current.pos
  {
  }

  lemma SettleOne(t: Terrain, start: Pos, goal: Pos, nodes: seq<Node>, n: nat, closed: set<int>, at: map<Pos, int>,
                  current: Node, nodes': seq<Node>)
    requires Settled(t, start, goal, nodes, n, closed, at)
    requires current.pos !in at && t.InMap(current.pos) && current.pos != goal && Shortest(t, start, current)
    requires nodes' == (if n == 0 then nodes else nodes + [current]) && nodes'[n] == current
    ensures Settled(t, start, goal, nodes', n + 1, closed + {t.Index(current.pos)}, at[current.pos := n])
  {
    hide Shortest;
    forall c | t.InMap(c) && t.Index(c) == t.Index(current.pos) ensures c == current.pos {
      IndexInjective(t, c, current.pos);
    }
  }

  lemma GrowFrontier(t: Terrain, goal: Pos, nodes: seq<Node>, n: nat, open: multiset<Node>, closed': set<int>,
                     at: map<Pos, int>, current: Node, nodes': seq<Node>, open': multiset<Node>)
    requires 0 < |nodes| && n <= |nodes| && n < |nodes'| && nodes'[n] == current
    requires nodes'[0] == nodes[0] && (forall i :: 0 <= i < n ==> nodes'[i] == nodes[i])
    requires Frontier(t, nodes, n, open, at)
    requires forall c :: t.InMap(c) ==> (t.Index(c) in closed' <==> c in at[current.pos := n])
    requires open' == WithNeighbours(t, goal, current, n, closed', open - multiset{current}, 4)
    ensures Frontier(t, nodes', n + 1, open', at[current.pos := n])
  {
    var rest := open - multiset{current};
    var at' := at[current.pos := n];
    WithNeighboursMembers(t, goal, current, n, closed', rest, 4);
    forall i, d | 0 <= i < n + 1 && 0 <= d < 4
      ensures Covered(t, nodes'[i], d, open', at')
    {
      var c := Step(nodes'[i].pos, d);
      if t.Walkable(c) && c !in at' {
        if i < n {
          assert Covered(t, nodes[i], d, open, at);
          PopKeepsOffer(open, current, c, nodes[i].g + 1);
          var e :| e in rest && e.pos == c && e.g <= nodes[i].g + 1;
          assert e in open';
        } else {
          assert Pushed(t, goal, current, n, closed', d);
          assert Neighbour(goal, current, n, d) in open';
        }
      }
    }
    if nodes[0].pos !in at' {
      assert nodes[0] in rest;
    }
  }

  lemma GrowQueue(t: Terrain, goal: Pos, nodes: seq<Node>, n: nat, open: multiset<Node>, closed': set<int>,
                  current: Node, nodes': seq<Node>, open': multiset<Node>)
    requires 0 < |nodes| <= |nodes'| && n < |nodes'| && nodes'[n] == current
    requires forall i :: 0 <= i < |nodes| ==> nodes'[i] == nodes[i]
    requires Queued(t, goal, nodes, n, open)
    requires open' == WithNeighbours(t, goal, current, n, closed', open - multiset{current}, 4)
    ensures Queued(t, goal, nodes', n + 1, open')
  {
    var rest := open - multiset{current};
    WithNeighboursMembers(t, goal, current, n, closed', rest, 4);
    forall e | e in open'
      ensures Scored(goal, e) && (e == nodes'[0] || Linked(t, nodes', e))
    {
      if e in rest {
        assert e in open;
      }
    }
  }

  /** A node one step from a table entry can be added to the table. */
  lemma GrowTable(t: Terrain, start: Pos, goal: Pos, nodes: seq<Node>, current: Node)
    requires Table(t, start, goal, nodes) && Linked(t, nodes, current) && Scored(goal, current)
    ensures Table(t, start, goal, nodes + [current])
  {
    var nodes' := nodes + [current];
    hide RawTerrain.Walkable, Adjacent, Scored, Manhattan;
    forall i | 0 < i < |nodes'|
      ensures nodes'[i].parent < i && Linked(t, nodes', nodes'[i]) && Scored(goal, nodes'[i])
    {
      if i < |nodes| {
        assert nodes'[i] == nodes[i] && Linked(t, nodes, nodes[i]);
      }
    }
  }

  lemma QueuedIsScored(t: Terrain, goal: Pos, nodes: seq<Node>, n: nat, open: multiset<Node>, e: Node)
    requires |nodes| > 0 && Queued(t, goal, nodes, n, open) && e in open
    ensures Scored(goal, e)
  {
  }

  lemma ClosedAfter(t: Terrain, start: Pos, goal: Pos, nodes: seq<Node>, n: nat, closed: set<int>, at: map<Pos, int>, p: Pos)
    requires Settled(t, start, goal, nodes, n, closed, at) && t.InMap(p)
    ensures forall c :: t.InMap(c) ==> (t.Index(c) in closed + {t.Index(p)} <==> c in at[p := n])
  {
    forall c | t.InMap(c) && t.Index(c) == t.Index(p) ensures c == p {
      IndexInjective(t, c, p);
    }
  }

  /** The table is as long as the number of expanded nodes, but never empty. */
  lemma SettledSize(t: Terrain, start: Pos, goal: Pos, nodes: seq<Node>, n: nat, closed: set<int>, at: map<Pos, int>,
                    current: Node, nodes': seq<Node>)
    requires Settled(t, start, goal, nodes, n, closed, at) && (n == 0 ==> current == nodes[0])
    requires nodes' == if n == 0 then nodes else nodes + [current]
    ensures |nodes| > 0 && n <= |nodes| <= |nodes'| && n < |nodes'| && nodes'[n] == current
  {
  }

  /** Expanding the best queued node keeps everything the search knows. */
  lemma ExpandKeepsSearch(t: Terrain, start: Pos, goal: Pos, nodes: seq<Node>, n: nat,
                          open: multiset<Node>, closed: set<int>, at: map<Pos, int>,
                          current: Node, nodes': seq<Node>, open': multiset<Node>)
    requires Search(t, start, goal, nodes, n, open, closed, at)
    requires current in open && current.pos !in at && t.InMap(current.pos) && current.pos != goal
    requires Shortest(t, start, current)
    requires nodes' == if n == 0 then nodes else nodes + [current]
    requires open' == WithNeighbours(t, goal, current, n, closed + {t.Index(current.pos)}, open - multiset{current}, 4)
    ensures Search(t, start, goal, nodes', n + 1, open', closed + {t.Index(current.pos)}, at[current.pos := n])
  {
    hide Table, Settled, Queued, Frontier, Linked, Scored, WithNeighbours;
    var closed' := closed + {t.Index(current.pos)};
    PoppedIndex(t, start, goal, nodes, n, open, closed, at, current);
    SettledSize(t, start, goal, nodes, n, closed, at, current, nodes');
    QueuedIsScored(t, goal, nodes, n, open, current);
    if n > 0 {
      GrowTable(t, start, goal, nodes, current);
    }
    ClosedAfter(t, start, goal, nodes, n, closed, at, current.pos);
    SettleOne(t, start, goal, nodes, n, closed, at, current, nodes');
    GrowQueue(t, goal, nodes, n, open, closed', current, nodes', open');
    GrowFrontier(t, goal, nodes, n, open, closed', at, current, nodes', open');
  }

  // ------------------------------------------------------------- the budget

  /** No expanded node's f exceeds the length of any route to the goal. */
  ghost predicate Frugal(t: Terrain, start: Pos, goal: Pos, nodes: seq<Node>, n: nat)
    requires n <= |nodes|
  {
    forall i, p :: 0 <= i < n && RouteTo(t, start, goal, p) ==> nodes[i].f <= |p|
  }

  lemma FrugalAfter(t: Terrain, start: Pos, goal: Pos, nodes: seq<Node>, n: nat, current: Node, nodes': seq<Node>)
    requires n <= |nodes| && Frugal(t, start, goal, nodes, n)
    requires nodes <= nodes' && n < |nodes'| && nodes'[n] == current
    requires forall p :: RouteTo(t, start, goal, p) ==> current.f <= |p|
    ensures Frugal(t, start, goal, nodes', n + 1)
  {
    forall i, p | 0 <= i < n + 1 && RouteTo(t, start, goal, p) ensures nodes'[i].f <= |p| {
      if i < n {
        assert nodes'[i] == nodes[i];
      }
    }
  }

  lemma TableSize(t: Terrain, start: Pos, goal: Pos, nodes: seq<Node>, n: nat,
                  open: multiset<Node>, closed: set<int>, at: map<Pos, int>)
    requires Search(t, start, goal, nodes, n, open, closed, at)
    ensures |nodes| == if n == 0 then 1 else n
  {
  }

  lemma SubsetSize<T>(a: set<T>, b: set<T>)
    requires a <= b
    ensures |a| <= |b|
  {
    assert b == a + (b - a);
  }

  lemma RouteStaysInMap(t: Terrain, s: Pos, p: seq<Pos>)
    requires t.InMap(s) && Route(t, s, p)
    ensures t.InMap(End(s, p))
  {
  }

  /** Closed cells all lie in the ellipse of the true distance, so a budget larger than the ellipse suffices. */
  lemma ExpandedInEllipse(t: Terrain, start: Pos, goal: Pos, nodes: seq<Node>, n: nat,
                          open: multiset<Node>, closed: set<int>, at: map<Pos, int>, dist: nat)
    requires Search(t, start, goal, nodes, n, open, closed, at) && Frugal(t, start, goal, nodes, n)
    requires IsDistance(t, start, goal, dist)
    ensures at.Keys <= Ellipse(t, start, goal, dist) && n <= |Ellipse(t, start, goal, dist)|
  {
    hide Queued, Frontier, Shortest, Route;
    var best :| RouteTo(t, start, goal, best) && |best| <= dist;
    forall c | c in at.Keys ensures c in Ellipse(t, start, goal, dist) {
      var i := at[c];
      ChainIsRoute(t, start, goal, nodes, i);
      var p := Chain(t, start, goal, nodes, i);
      RouteStaysInMap(t, start, p);
      assert nodes[i].f <= |best|;
      assert RouteTo(t, start, c, p) && |p| <= dist - Manhattan(c, goal);
      assert Within(t, start, Pos(c.x, c.y), dist - Manhattan(c, goal));
    }
    assert |at.Keys| == |at|;
    SubsetSize(at.Keys, Ellipse(t, start, goal, dist));
  }

  /** When the goal is popped every cell strictly inside the ellipse has been expanded. */
  lemma InnerEllipseExpanded(t: Terrain, start: Pos, goal: Pos, nodes: seq<Node>, n: nat,
                             open: multiset<Node>, closed: set<int>, at: map<Pos, int>, best: Node, dist: nat)
    requires Search(t, start, goal, nodes, n, open, closed, at)
    requires forall e :: e in open ==> !Worse(best, e)
    requires best.f >= dist
    ensures Ellipse(t, start, goal, dist - 1) <= at.Keys && |Ellipse(t, start, goal, dist - 1)| <= n
  {
    assert |at| == n;
    hide Search, Worse, Route;
    forall c | c in Ellipse(t, start, goal, dist - 1) ensures c in at.Keys {
      var p :| RouteTo(t, start, c, p) && |p| <= dist - 1 - Manhattan(c, goal);
      if c !in at {
        BestBounds(t, start, goal, nodes, n, open, closed, at, best, c);
      }
    }
    assert |at.Keys| == |at|;
    SubsetSize(Ellipse(t, start, goal, dist - 1), at.Keys);
  }

  lemma BestIsShortest(t: Terrain, start: Pos, goal: Pos, nodes: seq<Node>, n: nat,
                       open: multiset<Node>, closed: set<int>, at: map<Pos, int>, best: Node)
    requires Search(t, start, goal, nodes, n, open, closed, at)
    requires best in open && (forall e :: e in open ==> !Worse(best, e)) && best.pos !in at
    ensures Shortest(t, start, best) && t.InMap(best.pos)
    ensures forall p :: RouteTo(t, start, goal, p) ==> best.f <= |p|
  {
    BestBounds(t, start, goal, nodes, n, open, closed, at, best, best.pos);
    BestBounds(t, start, goal, nodes, n, open, closed, at, best, goal);
  }

  /** A queue that runs dry has closed every reachable cell, so the goal is not one of them. */
  lemma DryQueueMeansUnreachable(t: Terrain, start: Pos, goal: Pos, nodes: seq<Node>, n: nat,
                                 closed: set<int>, at: map<Pos, int>)
    requires Search(t, start, goal, nodes, n, multiset{}, closed, at)
    ensures forall p :: !RouteTo(t, start, goal, p)
  {
    forall p | RouteTo(t, start, goal, p) ensures false {
      var e := OpenOnRoute(t, start, goal, nodes, n, multiset{}, closed, at, p);
    }
  }

  // ------------------------------------------------------------- open ground

  predicate Between(a: int, b: int, n: int) {
    a <= n <= b || b <= n <= a
  }

  /** Every cell of the rectangle that the two cells span is walkable. */
  ghost predicate OpenGround(t: Terrain, a: Pos, b: Pos) {
    forall x, y :: Between(a.x, b.x, x) && Between(a.y, b.y, y) ==> t.Walkable(Pos(x, y))
  }

  /** The cells of the rectangle are exactly those that lie on no detour. */
  lemma RectangleIff(a: Pos, b: Pos, c: Pos)
    ensures Manhattan(a, c) + Manhattan(c, b) == Manhattan(a, b) <==> Between(a.x, b.x, c.x) && Between(a.y, b.y, c.y)
    ensures Manhattan(a, c) + Manhattan(c, b) >= Manhattan(a, b)
  {
  }

  lemma {:induction false} RouteIsNoShortcut(t: Terrain, s: Pos, p: seq<Pos>)
    requires Route(t, s, p)
    ensures Manhattan(s, End(s, p)) <= |p|
    decreases |p|
  {
    if p != [] {
      RouteIsNoShortcut(t, s, Front(p));
    }
  }

  /** No queued node is deeper than the number of expanded ones, and none is less deep than its distance. */
  lemma QueuedDepth(t: Terrain, start: Pos, goal: Pos, nodes: seq<Node>, n: nat,
                    open: multiset<Node>, closed: set<int>, at: map<Pos, int>, e: Node)
    requires Search(t, start, goal, nodes, n, open, closed, at) && e in open
    ensures Manhattan(start, e.pos) <= e.g <= n && e.f == e.g + Manhattan(e.pos, goal)
  {
    if e != nodes[0] {
      hide Settled, Frontier, Shortest, Route;
      TableSize(t, start, goal, nodes, n, open, closed, at);
      ChainIsRoute(t, start, goal, nodes, e.parent);
      RouteIsNoShortcut(t, start, Chain(t, start, goal, nodes, e.parent));
      assert Linked(t, nodes, e);
    }
  }

  lemma SettledDepth(t: Terrain, start: Pos, goal: Pos, nodes: seq<Node>, n: nat,
                     open: multiset<Node>, closed: set<int>, at: map<Pos, int>, c: Pos)
    requires Search(t, start, goal, nodes, n, open, closed, at) && c in at
    ensures Manhattan(start, c) < n
  {
    hide Queued, Frontier, Shortest, Route;
    ChainIsRoute(t, start, goal, nodes, at[c]);
    RouteIsNoShortcut(t, start, Chain(t, start, goal, nodes, at[c]));
  }

  /** On open ground the search walks straight in: some queued node is as deep as the number of expanded
      ones, and lies on no detour. */
  ghost predicate Straight(t: Terrain, start: Pos, goal: Pos, n: nat, open: multiset<Node>) {
    OpenGround(t, start, goal) ==> exists e :: e in open && e.g == n && e.f == Manhattan(start, goal)
  }

  /** As the deepest of the best nodes comes out first, it is such a node, and it has not been closed. */
  lemma StraightPop(t: Terrain, start: Pos, goal: Pos, nodes: seq<Node>, n: nat,
                    open: multiset<Node>, closed: set<int>, at: map<Pos, int>, current: Node)
    requires Search(t, start, goal, nodes, n, open, closed, at) && Straight(t, start, goal, n, open)
    requires current in open && (forall e :: e in open ==> !Worse(current, e)) && OpenGround(t, start, goal)
    ensures current.g == n && current.f == Manhattan(start, goal) && Manhattan(start, current.pos) == n
    ensures current.pos !in at
  {
    var e :| e in open && e.g == n && e.f == Manhattan(start, goal);
    QueuedDepth(t, start, goal, nodes, n, open, closed, at, current);
    RectangleIff(start, goal, current.pos);
    assert !Worse(current, e);
    if current.pos in at {
      SettledDepth(t, start, goal, nodes, n, open, closed, at, current.pos);
    }
  }

  lemma SkipKeepsStraight(t: Terrain, start: Pos, goal: Pos, nodes: seq<Node>, n: nat,
                          open: multiset<Node>, closed: set<int>, at: map<Pos, int>, current: Node)
    requires Search(t, start, goal, nodes, n, open, closed, at) && Straight(t, start, goal, n, open)
    requires current in open && (forall e :: e in open ==> !Worse(current, e)) && current.pos in at
    ensures Straight(t, start, goal, n, open - multiset{current})
  {
    if OpenGround(t, start, goal) {
      StraightPop(t, start, goal, nodes, n, open, closed, at, current);
      assert false;
    }
  }

  /** The next cell of a straight walk. */
  lemma NextOnTheWay(a: Pos, b: Pos, c: Pos) returns (d: int)
    requires c != b && Manhattan(a, c) + Manhattan(c, b) == Manhattan(a, b)
    ensures 0 <= d < 4 && Manhattan(a, Step(c, d)) == Manhattan(a, c) + 1
    ensures Manhattan(Step(c, d), b) == Manhattan(c, b) - 1
  {
    d := if b.y < c.y then 0 else if b.y > c.y then 1 else if b.x < c.x then 2 else 3;
  }

  lemma StraightExpand(t: Terrain, start: Pos, goal: Pos, nodes: seq<Node>, n: nat,
                       open: multiset<Node>, closed: set<int>, at: map<Pos, int>, current: Node, open': multiset<Node>)
    requires Search(t, start, goal, nodes, n, open, closed, at) && Straight(t, start, goal, n, open)
    requires current in open && (forall e :: e in open ==> !Worse(current, e))
    requires current.pos !in at && t.InMap(current.pos) && current.pos != goal
    requires open' == WithNeighbours(t, goal, current, n, closed + {t.Index(current.pos)}, open - multiset{current}, 4)
    ensures Straight(t, start, goal, n + 1, open')
  {
    if OpenGround(t, start, goal) {
      StraightPop(t, start, goal, nodes, n, open, closed, at, current);
      QueuedDepth(t, start, goal, nodes, n, open, closed, at, current);
      var d := NextOnTheWay(start, goal, current.pos);
      var c := Step(current.pos, d);
      RectangleIff(start, goal, c);
      assert t.Walkable(Pos(c.x, c.y));
      if c in at {
        SettledDepth(t, start, goal, nodes, n, open, closed, at, c);
      }
      NotClosedYet(t, start, goal, nodes, n, open, closed, at, current.pos, c);
      hide Search, Worse;
      WithNeighboursMembers(t, goal, current, n, closed + {t.Index(current.pos)}, open - multiset{current}, 4);
      assert Neighbour(goal, current, n, d) in open';
    }
  }

  lemma NotClosedYet(t: Terrain, start: Pos, goal: Pos, nodes: seq<Node>, n: nat,
                     open: multiset<Node>, closed: set<int>, at: map<Pos, int>, p: Pos, c: Pos)
    requires Search(t, start, goal, nodes, n, open, closed, at) && t.InMap(p) && t.InMap(c) && c !in at && c != p
    ensures t.Index(c) !in closed + {t.Index(p)}
  {
    if t.Index(c) == t.Index(p) {
      IndexInjective(t, c, p);
    }
  }

  /** So the walk has not run out of budget before it is as long as the distance. */
  lemma StraightNotOver(t: Terrain, start: Pos, goal: Pos, maxNodes: nat, nodes: seq<Node>, n: nat,
                        open: multiset<Node>, closed: set<int>, at: map<Pos, int>)
    requires Search(t, start, goal, nodes, n, open, closed, at) && Straight(t, start, goal, n, open)
    requires |open| == 0 || n >= maxNodes
    ensures OpenGround(t, start, goal) ==> maxNodes <= Manhattan(start, goal)
  {
    if OpenGround(t, start, goal) {
      var e :| e in open && e.g == n && e.f == Manhattan(start, goal);
      QueuedDepth(t, start, goal, nodes, n, open, closed, at, e);
    }
  }

  // ---------------------------------------------------------------- the method

  function Reversed(s: seq<Pos>): seq<Pos> {
    if s == [] then [] else Reversed(s[1..]) + [s[0]]
  }

  lemma {:induction false} ReversedSnoc(s: seq<Pos>, x: Pos)
    ensures Reversed(s + [x]) == [x] + Reversed(s)
  {
    if s != [] {
      ReversedSnoc(s[1..], x);
      assert (s + [x])[1..] == s[1..] + [x];
    } else {
      assert ([] + [x])[1..] == [];
    }
  }

  /** Follows parents back from the end and turns the walk round. */
  method Backtrack(t: Terrain, start: Pos, goal: Pos, nodes: seq<Node>, end: nat) returns (path: seq<Pos>)
    requires Table(t, start, goal, nodes) && end < |nodes|
    ensures path == Chain(t, start, goal, nodes, end)
  {
    var reversePath := [];
    var idx := end;
    while idx != -1 && idx != 0
      invariant 0 <= idx <= end
      invariant Chain(t, start, goal, nodes, idx) + Reversed(reversePath) == Chain(t, start, goal, nodes, end)
      decreases idx
    {
      ReversedSnoc(reversePath, nodes[idx].pos);
      reversePath := reversePath + [nodes[idx].pos];
      idx := nodes[idx].parent;
    }
    path := TurnRound(reversePath);
  }

  method TurnRound(walk: seq<Pos>) returns (path: seq<Pos>)
    ensures path == Reversed(walk)
  {
    path := [];
    for it := |walk| downto 0
      invariant path == Reversed(walk[it..])
    {
      assert walk[it..][1..] == walk[it + 1..];
      path := path + [walk[it]];
    }
  }

  lemma GoalPopped(t: Terrain, start: Pos, goal: Pos, nodes: seq<Node>, n: nat,
                   open: multiset<Node>, closed: set<int>, at: map<Pos, int>, best: Node, dist: nat)
    requires Search(t, start, goal, nodes, n, open, closed, at)
    requires best in open && (forall e :: e in open ==> !Worse(best, e))
    requires best.pos == goal && start != goal && IsDistance(t, start, goal, dist)
    ensures |Ellipse(t, start, goal, dist - 1)| <= n
  {
    var p := Chain(t, start, goal, nodes + [best], |nodes|);
    ChainIsRoute(t, start, goal, nodes + [best], |nodes|);
    assert RouteTo(t, start, goal, p);
    assert |p| >= dist;
    InnerEllipseExpanded(t, start, goal, nodes, n, open, closed, at, best, dist);
  }

  /** A returned path is a shortest route to the goal, and shorter than the budget. */
  ghost predicate ShortestRoute(t: Terrain, start: Pos, goal: Pos, maxNodes: nat, path: seq<Pos>) {
    && RouteTo(t, start, goal, path)
    && |path| < maxNodes
    && forall p :: RouteTo(t, start, goal, p) ==> |path| <= |p|
  }

  /** The budget is certainly enough: fewer cells than the budget lie in the ellipse of the true distance. */
  ghost predicate BudgetSuffices(t: Terrain, start: Pos, goal: Pos, maxNodes: nat) {
    exists dist: nat :: IsDistance(t, start, goal, dist) && |Ellipse(t, start, goal, dist)| < maxNodes
  }

  /** The budget is certainly too small: the cells strictly inside the ellipse already use it up. */
  ghost predicate BudgetFails(t: Terrain, start: Pos, goal: Pos, maxNodes: nat) {
    exists dist: nat :: IsDistance(t, start, goal, dist) && |Ellipse(t, start, goal, dist - 1)| >= maxNodes
  }

  /** What is promised of the result of a search. */
  ghost predicate IsResult(t: Terrain, start: Pos, goal: Pos, maxNodes: nat, path: seq<Pos>) {
    && (path != [] ==> ShortestRoute(t, start, goal, maxNodes, path))
    && (start == goal || !t.Walkable(goal) ==> path == [])
    && (start != goal && BudgetSuffices(t, start, goal, maxNodes) ==> path != [])
    && (BudgetFails(t, start, goal, maxNodes) ==> path == [])
    && (start != goal && OpenGround(t, start, goal) ==> (path != [] <==> Manhattan(start, goal) < maxNodes))
  }

  /** The goal has come out of the queue first: append it and walk back. */
  method Arrive(t: Terrain, start: Pos, goal: Pos, maxNodes: nat, nodes: seq<Node>, ghost n: nat,
                ghost open: multiset<Node>, ghost closed: set<int>, ghost at: map<Pos, int>, current: Node)
    returns (path: seq<Pos>)
    requires Search(t, start, goal, nodes, n, open, closed, at)
    requires current in open && (forall e :: e in open ==> !Worse(current, e))
    requires current.pos == goal && start != goal && goal !in at && n < maxNodes
    ensures path != [] && ShortestRoute(t, start, goal, maxNodes, path) && !BudgetFails(t, start, goal, maxNodes)
    ensures Manhattan(start, goal) < maxNodes
  {
    BestIsShortest(t, start, goal, nodes, n, open, closed, at, current);
    PoppedIndex(t, start, goal, nodes, n, open, closed, at, current);
    forall dist: nat | IsDistance(t, start, goal, dist)
      ensures |Ellipse(t, start, goal, dist - 1)| < maxNodes
    {
      GoalPopped(t, start, goal, nodes, n, open, closed, at, current, dist);
    }
    var end := |nodes|;
    var table := nodes + [current];
    ChainIsRoute(t, start, goal, table, end);
    path := Backtrack(t, start, goal, table, end);
    RouteIsNoShortcut(t, start, path);
  }

  /** Registers the popped node in the parent table and queues its neighbours. */
  method Expand(t: Terrain, ghost start: Pos, goal: Pos, nodes: seq<Node>, ghost n: nat,
                ghost before: multiset<Node>, open: multiset<Node>, ghost settled: set<int>, closed: set<int>,
                ghost at: map<Pos, int>, current: Node)
    returns (nodes': seq<Node>, open': multiset<Node>)
    requires Search(t, start, goal, nodes, n, before, settled, at) && Frugal(t, start, goal, nodes, n)
    requires current in before && (forall e :: e in before ==> !Worse(current, e))
    requires current.pos !in at && t.InMap(current.pos) && current.pos != goal
    requires open == before - multiset{current} && closed == settled + {t.Index(current.pos)}
    requires Straight(t, start, goal, n, before)
    ensures Straight(t, start, goal, n + 1, open')
    ensures Search(t, start, goal, nodes', n + 1, open', closed, at[current.pos := n])
    ensures Frugal(t, start, goal, nodes', n + 1)
  {
    hide Search, Frugal, Straight, Shortest, Worse, Linked, RouteTo, WithNeighbours;
    BestIsShortest(t, start, goal, nodes, n, before, settled, at, current);
    PoppedIndex(t, start, goal, nodes, n, before, settled, at, current);
    TableSize(t, start, goal, nodes, n, before, settled, at);
    nodes' := nodes;
    var currentIdx := FindIndex(nodes, current);
    if currentIdx == -1 {
      currentIdx := |nodes|;
      nodes' := nodes + [current];
    }
    open' := PushNeighbours(t, goal, current, currentIdx, closed, open);
    ExpandKeepsSearch(t, start, goal, nodes, n, before, settled, at, current, nodes', open');
    FrugalAfter(t, start, goal, nodes, n, current, nodes');
    StraightExpand(t, start, goal, nodes, n, before, settled, at, current, open');
  }

  method FindPath(t: Terrain, start: Pos, goal: Pos, maxNodes: nat) returns (path: seq<Pos>)
    requires t.InMap(start)
    ensures IsResult(t, start, goal, maxNodes, path)
  {
    path := [];
    if !t.Walkable(goal) {
      NeverArrives(t, start, goal);
      return;
    }
    if start == goal {
      return;
    }

    var startNode := Node(start, 0, Manhattan(start, goal), -1);
    var nodes := [startNode];
    var open := multiset{startNode};
    var closed: set<int> := {};
    ghost var at: map<Pos, int> := map[];
    var nodesProcessed := 0;

    while |open| > 0 && nodesProcessed < maxNodes
      invariant nodesProcessed <= maxNodes
      invariant Search(t, start, goal, nodes, nodesProcessed, open, closed, at)
      invariant Frugal(t, start, goal, nodes, nodesProcessed) && Straight(t, start, goal, nodesProcessed, open)
      decreases maxNodes - nodesProcessed, |open|
    {
      ghost var b := BestExists(open);
      var current :| current in open && forall e :: e in open ==> !Worse(current, e);
      ghost var before := open;
      open := open - multiset{current};
      QueuedInMap(t, start, goal, nodes, nodesProcessed, before, closed, at, current);
      var key := t.Index(current.pos);
      if key in closed {
        SkipKeepsSearch(t, start, goal, nodes, nodesProcessed, before, closed, at, current);
        SkipKeepsStraight(t, start, goal, nodes, nodesProcessed, before, closed, at, current);
        continue;
      }
      ghost var settled := closed;
      closed := closed + {key};
      if current.pos == goal {
        path := Arrive(t, start, goal, maxNodes, nodes, nodesProcessed, before, settled, at, current);
        return;
      }
      nodes, open := Expand(t, start, goal, nodes, nodesProcessed, before, open, settled, closed, at, current);
      at := at[current.pos := nodesProcessed];
      nodesProcessed := nodesProcessed + 1;
    }
    GaveUp(t, start, goal, maxNodes, nodes, nodesProcessed, open, closed, at);
    StraightNotOver(t, start, goal, maxNodes, nodes, nodesProcessed, open, closed, at);
  }

  lemma NeverArrives(t: Terrain, start: Pos, goal: Pos)
    requires !t.Walkable(goal)
    ensures start != goal ==> forall maxNodes: nat :: !BudgetSuffices(t, start, goal, maxNodes)
    ensures !OpenGround(t, start, goal)
  {
    assert !t.Walkable(Pos(goal.x, goal.y));
  }

  lemma QueuedInMap(t: Terrain, start: Pos, goal: Pos, nodes: seq<Node>, n: nat,
                    open: multiset<Node>, closed: set<int>, at: map<Pos, int>, e: Node)
    requires Search(t, start, goal, nodes, n, open, closed, at) && e in open
    ensures t.InMap(e.pos) && (t.Index(e.pos) in closed <==> e.pos in at)
  {
  }

  lemma GaveUp(t: Terrain, start: Pos, goal: Pos, maxNodes: nat, nodes: seq<Node>, n: nat,
               open: multiset<Node>, closed: set<int>, at: map<Pos, int>)
    requires Search(t, start, goal, nodes, n, open, closed, at) && Frugal(t, start, goal, nodes, n)
    requires |open| == 0 || n >= maxNodes
    ensures !BudgetSuffices(t, start, goal, maxNodes)
  {
    forall dist: nat | IsDistance(t, start, goal, dist)
      ensures |Ellipse(t, start, goal, dist)| >= maxNodes
    {
      ExpandedInEllipse(t, start, goal, nodes, n, open, closed, at, dist);
      if |open| == 0 {
        assert open == multiset{};
        DryQueueMeansUnreachable(t, start, goal, nodes, n, closed, at);
      }
    }
  }
}
