/**
 * `MoveNode` (selene_chess_bot/alpha_zero/checkmate_detector/node.py): one
 * move of the forced-mate search tree, the verdict of its children, and the
 * route dictionary that lists the shortest lines to mate below it.
 *
 * The route dictionary of `checkmate_detector.py` mixes the bookkeeping keys `depth`,
 * `is_checkmate` and `best_child_depth` with one key per child move; here
 * the bookkeeping is a `Route` record and the child moves a map.
 */
module MateTree {
  import opened Python
  import opened Notation

  /** A mate distance: an `int`, or Python's `float('inf')` when no mate is below. */
  datatype Depth = Finite(n: int) | Infinite

  /** Python's `a >= b` between two distances. */
  predicate AtLeast(a: Depth, b: Depth)
  {
    match (a, b)
    case (Infinite, _) => true
    case (Finite(_), Infinite) => false
    case (Finite(x), Finite(y)) => x >= y
  }

  /** Python's `a > b` between two distances. */
  predicate Greater(a: Depth, b: Depth)
  {
    match (a, b)
    case (Infinite, Infinite) => false
    case (Infinite, Finite(_)) => true
    case (Finite(_), Infinite) => false
    case (Finite(x), Finite(y)) => x > y
  }

  /** The update `if best >= d: best = d`: the smaller of the two, ties going to `d`. */
  function Min(best: Depth, d: Depth): (r: Depth)
    ensures AtLeast(best, r) && AtLeast(d, r)
    ensures r == best || r == d
  {
    if AtLeast(best, d) then d else best
  }

  /** The dictionary filled in by `_get_route_to_checkmate`. */
  datatype Route = Route(
    depth: int,                 // 'depth'
    mate: bool,                 // 'is_checkmate', present only on a childless mate
    best: Depth,                // 'best_child_depth'
    lines: map<string, Route>)  // one entry per child move kept

  /** The dictionary of `get_route_to_checkmate`: the root move and its 'best_depth'. */
  datatype RouteToMate = RouteToMate(move: string, route: Route, bestDepth: Depth)

  /** Every level of the route records its depth, one more than its parent's. */
  ghost predicate Levels(r: Route, depth: int)
    decreases r
  {
    r.depth == depth && forall k :: k in r.lines ==> Levels(r.lines[k], depth + 1)
  }

  /** Every child entry left has the best distance of its parent, all the way down. */
  ghost predicate Pruned(r: Route)
    decreases r
  {
    forall k :: k in r.lines ==> r.lines[k].best == r.best && Pruned(r.lines[k])
  }

  class MoveNode {
    var parent: MoveNode?
    var children: seq<MoveNode>
    const move: string
    const depth: int
    const playerTurn: Color
    const seekingMateFor: Color
    var isCheckmate: bool

    constructor (move: string, parent: MoveNode?, playerTurn: Color, seekingMateFor: Color, depth: int, isCheckmate: bool)
      ensures this.move == move && this.parent == parent && this.depth == depth
      ensures this.playerTurn == playerTurn && this.seekingMateFor == seekingMateFor
      ensures this.isCheckmate == isCheckmate && children == []
    {
      this.parent := parent;
      children := [];
      this.move := move;
      this.depth := depth;
      this.playerTurn := playerTurn;
      this.seekingMateFor := seekingMateFor;
      this.isCheckmate := isCheckmate;
    }

    /** `add_child`: the child goes at the end; nothing else changes. */
    method AddChild(child: MoveNode)
      modifies this
      ensures children == old(children) + [child]
      ensures parent == old(parent) && isCheckmate == old(isCheckmate)
    {
      children := children + [child];
    }

    /**
     * `children_forced_checkmate`: on the mating side's move every reply it
     * may choose must mate (all children), on the defender's move one mate
     * below is enough (any child). The verdict is stored and returned.
     */
    method ChildrenForcedCheckmate() returns (r: bool)
      modifies this
      ensures r == isCheckmate
      ensures r == Verdict(seekingMateFor == playerTurn, old(Flags(children)))
      ensures children == old(children) && parent == old(parent)
    {
      r := CollectVerdict(seekingMateFor == playerTurn, children);
      isCheckmate := r;
    }

    /**
     * `_get_route_to_checkmate`: a childless mate is at its own depth; any
     * other node is as far as its nearest mating child, and with
     * `pruned` (the default, `get_only_best_lines`) only the children at that
     * distance are kept. `nodes` and `rank` are the ghost tree the search
     * built, which bounds the recursion.
     */
    method RouteToCheckmate(depth: int, pruned: bool, ghost nodes: set<MoveNode>, ghost rank: map<MoveNode, nat>)
      returns (route: Route)
      requires this in nodes && Ranked(nodes, rank)
      decreases rank[this], 1, 0
      ensures route.best == BestDepth(this, depth, nodes, rank)
      ensures route.mate <==> children == [] && isCheckmate
      ensures Shape(route, depth, pruned, Moves(MateChildren(children)))
      ensures pruned && Distinct(Moves(MateChildren(children))) ==>
        Complete(route.lines, Moves(MateChildren(children)), Dists(MateChildren(children), depth + 1, nodes, rank),
                 |MateChildren(children)|, route.best)
    {
      if children == [] && isCheckmate {
        return Route(depth, true, Finite(depth), map[]);
      }
      var kids := MateChildren(children);
      ghost var ds := Dists(kids, depth + 1, nodes, rank);
      BestOfMateChildren(this, depth, nodes, rank);
      route := LinesBelow(kids, depth, pruned, ds, nodes, rank);
      assert kids == MateChildren(children);
      assert ds == Dists(kids, depth + 1, nodes, rank);
      assert BestDepth(this, depth, nodes, rank) == MinFold(ds);
    }

    /**
     * `get_route_to_checkmate`: only a mate node has a route. Its move maps
     * to the pruned route from depth 1, and 'best_depth' is the distance
     * found there.
     */
    method GetRouteToCheckmate(ghost nodes: set<MoveNode>, ghost rank: map<MoveNode, nat>) returns (r: Result<RouteToMate>)
      requires this in nodes && Ranked(nodes, rank)
      ensures r.Err? <==> !isCheckmate
      ensures r.Err? ==> r.error == PlainException
      ensures r.Ok? ==> r.value.move == move && r.value.bestDepth == r.value.route.best == BestDepth(this, 1, nodes, rank)
      ensures r.Ok? ==> Levels(r.value.route, 1) && Pruned(r.value.route)
      ensures r.Ok? ==> (r.value.route.mate <==> children == [])
    {
      if !isCheckmate {
        return Err(PlainException);
      }
      var route := RouteToCheckmate(1, true, nodes, rank);
      return Ok(RouteToMate(move, route, route.best));
    }

    /**
     * One turn of the first loop: the child's dictionary is created empty
     * under its move and filled in by the recursive call, then compared.
     */
    method EnterChild(kids: seq<MoveNode>, i: nat, depth: int, pruned: bool,
                      lines: map<string, Route>, best: Depth, ghost src: map<string, nat>, ghost ds: seq<Depth>,
                      ghost nodes: set<MoveNode>, ghost rank: map<MoveNode, nat>)
      returns (lines': map<string, Route>, best': Depth, ghost src': map<string, nat>)
      requires this in nodes && Ranked(nodes, rank) && i < |kids|
      requires kids[i] in nodes && rank[kids[i]] < rank[this]
      requires ds == Dists(kids, depth + 1, nodes, rank)
      requires best == MinFold(ds[..i]) && Below(ds, i, best) && Entries(lines, src, Moves(kids), ds, i, depth + 1)
      requires pruned && Distinct(Moves(kids)) ==> Complete(lines, Moves(kids), ds, i, best)
      decreases rank[this], 0, 0
      ensures best' == MinFold(ds[..i + 1]) && Below(ds, i + 1, best') && Entries(lines', src', Moves(kids), ds, i + 1, depth + 1)
      ensures pruned && Distinct(Moves(kids)) ==> Complete(lines', Moves(kids), ds, i + 1, best')
    {
      var kid := kids[i];
      var sub := kid.RouteToCheckmate(depth + 1, true, nodes, rank);
      assert sub.best == ds[i];
      lines' := lines[kid.move := sub];
      src' := src[kid.move := i];
      best' := best;
      if AtLeast(best, sub.best) {
        best' := sub.best;
      } else if pruned {
        lines' := lines' - {kid.move};
        src' := src' - {kid.move};
      }
      CollectStep(lines, src, Moves(kids), ds, i, depth + 1, pruned, best, sub, lines', src', best');
    }

    /** The two loops of `_get_route_to_checkmate` over the mating children `kids`. */
    method LinesBelow(kids: seq<MoveNode>, depth: int, pruned: bool, ghost ds: seq<Depth>,
                      ghost nodes: set<MoveNode>, ghost rank: map<MoveNode, nat>)
      returns (route: Route)
      requires this in nodes && Ranked(nodes, rank) && kids == MateChildren(children)
      requires forall j :: 0 <= j < |kids| ==> kids[j] in nodes && rank[kids[j]] < rank[this]
      requires ds == Dists(kids, depth + 1, nodes, rank)
      decreases rank[this], 0, 2
      ensures route.depth == depth && !route.mate && route.best == MinFold(ds)
      ensures Shape(route, depth, pruned, Moves(kids))
      ensures pruned && Distinct(Moves(kids)) ==> Complete(route.lines, Moves(kids), ds, |kids|, route.best)
    {
      var lines, best, src := CollectLines(kids, depth, pruned, ds, nodes, rank);
      if pruned {
        lines := PruneLines(Moves(kids), lines, best, src, ds, depth + 1);
      }
      route := Route(depth, false, best, lines);
      RouteShape(route, depth, pruned, Moves(kids), ds, src);
    }

    /**
     * The first loop of `_get_route_to_checkmate`: each mating child's route
     * is entered under its move; the nearest distance so far is kept, and a
     * child farther than it is dropped at once when pruning. `src` tells
     * which child each entry came from.
     */
    method CollectLines(kids: seq<MoveNode>, depth: int, pruned: bool, ghost ds: seq<Depth>,
                        ghost nodes: set<MoveNode>, ghost rank: map<MoveNode, nat>)
      returns (lines: map<string, Route>, best: Depth, ghost src: map<string, nat>)
      requires this in nodes && Ranked(nodes, rank) && kids == MateChildren(children)
      requires forall j :: 0 <= j < |kids| ==> kids[j] in nodes && rank[kids[j]] < rank[this]
      requires ds == Dists(kids, depth + 1, nodes, rank)
      decreases rank[this], 0, 1
      ensures best == MinFold(ds)
      ensures Below(ds, |kids|, best)
      ensures Entries(lines, src, Moves(kids), ds, |kids|, depth + 1)
      ensures pruned && Distinct(Moves(kids)) ==> Complete(lines, Moves(kids), ds, |kids|, best)
    {
      ghost var ms := Moves(kids);
      lines := map[];
      best := Infinite;
      src := map[];
      var i := 0;
      while i < |kids|
        invariant 0 <= i <= |kids|
        invariant best == MinFold(ds[..i])
        invariant Below(ds, i, best)
        invariant Entries(lines, src, ms, ds, i, depth + 1)
        invariant pruned && Distinct(ms) ==> Complete(lines, ms, ds, i, best)
      {
        lines, best, src := EnterChild(kids, i, depth, pruned, lines, best, src, ds, nodes, rank);
        i := i + 1;
      }
      assert ds[..i] == ds;
    }
  }

  /** `all(flags)` for the mating side, `any(flags)` for the defender. */
  function Verdict(all: bool, flags: seq<bool>): (r: bool)
    ensures all ==> (r <==> forall i :: 0 <= i < |flags| ==> flags[i])
    ensures !all ==> (r <==> exists i :: 0 <= i < |flags| && flags[i])
  {
    if flags == [] then all
    else if all then flags[0] && Verdict(all, flags[1..])
    else flags[0] || Verdict(all, flags[1..])
  }

  lemma {:induction false} AllAppend(flags: seq<bool>, f: bool)
    ensures Verdict(true, flags + [f]) == (Verdict(true, flags) && f)
  {
    assert forall i :: 0 <= i < |flags| ==> (flags + [f])[i] == flags[i];
    assert (flags + [f])[|flags|] == f;
  }

  lemma {:induction false} AnyAppend(flags: seq<bool>, f: bool)
    ensures Verdict(false, flags + [f]) == (Verdict(false, flags) || f)
  {
    assert forall i :: 0 <= i < |flags| ==> (flags + [f])[i] == flags[i];
    assert (flags + [f])[|flags|] == f;
  }

  /** The `is_checkmate` flags of `kids`, in order. */
  function Flags(kids: seq<MoveNode>): (r: seq<bool>)
    reads kids
    ensures |r| == |kids| && forall i :: 0 <= i < |kids| ==> r[i] == kids[i].isCheckmate
  {
    if kids == [] then [] else [kids[0].isCheckmate] + Flags(kids[1..])
  }

  /** `next_moves_to_checkmate`: the mating children, in their order. */
  function MateChildren(kids: seq<MoveNode>): (r: seq<MoveNode>)
    reads kids
    ensures |r| <= |kids|
    ensures forall i :: 0 <= i < |r| ==> r[i].isCheckmate && r[i] in kids
    ensures forall i :: 0 <= i < |kids| && kids[i].isCheckmate ==> kids[i] in r
  {
    if kids == [] then []
    else (if kids[0].isCheckmate then [kids[0]] else []) + MateChildren(kids[1..])
  }

  /** The moves of `kids`, in order. */
  function Moves(kids: seq<MoveNode>): (r: seq<string>)
    ensures |r| == |kids| && forall i :: 0 <= i < |kids| ==> r[i] == kids[i].move
  {
    if kids == [] then [] else [kids[0].move] + Moves(kids[1..])
  }

  predicate Distinct(ms: seq<string>)
  {
    forall i, j :: 0 <= i < j < |ms| ==> ms[i] != ms[j]
  }

  /** `nodes` is closed under children, and a child ranks below its parent. */
  ghost predicate Ranked(nodes: set<MoveNode>, rank: map<MoveNode, nat>)
    reads nodes
  {
    (forall n :: n in nodes ==> n in rank) &&
    forall n, i :: n in nodes && 0 <= i < |n.children| ==>
      n.children[i] in nodes && n.children[i] in rank && rank[n.children[i]] < rank[n]
  }

  /**
   * The distance to mate from `n` at `depth`: its own depth for a childless
   * mate, otherwise the nearest of its mating children one level down
   * (infinite when none mates).
   */
  ghost function BestDepth(n: MoveNode, depth: int, nodes: set<MoveNode>, rank: map<MoveNode, nat>): Depth
    reads nodes
    requires n in nodes && Ranked(nodes, rank)
    decreases rank[n], 1, 0
  {
    if n.children == [] && n.isCheckmate then Finite(depth)
    else BestUpTo(n, |MateChildren(n.children)|, depth + 1, nodes, rank)
  }

  /** The nearest of the first `i` mating children of `n`, taken in order as the loop does. */
  ghost function BestUpTo(n: MoveNode, i: nat, childDepth: int, nodes: set<MoveNode>, rank: map<MoveNode, nat>): Depth
    reads nodes
    requires n in nodes && Ranked(nodes, rank) && i <= |MateChildren(n.children)|
    decreases rank[n], 0, i
  {
    if i == 0 then Infinite
    else
      var kid := MateChildren(n.children)[i - 1];
      assert kid in n.children;
      Min(BestUpTo(n, i - 1, childDepth, nodes, rank), BestDepth(kid, childDepth, nodes, rank))
  }

  /** The loop of `children_forced_checkmate` over the children's flags. */
  method CollectVerdict(all: bool, kids: seq<MoveNode>) returns (r: bool)
    ensures r == Verdict(all, Flags(kids))
  {
    ghost var flags := Flags(kids);
    r := all;
    var i := 0;
    while i < |kids|
      invariant 0 <= i <= |kids|
      invariant r == Verdict(all, flags[..i])
    {
      assert flags[..i + 1] == flags[..i] + [flags[i]];
      if all {
        AllAppend(flags[..i], flags[i]);
        r := r && kids[i].isCheckmate;
      } else {
        AnyAppend(flags[..i], flags[i]);
        r := r || kids[i].isCheckmate;
      }
      i := i + 1;
    }
    assert flags[..i] == flags;
  }

  /** The mating children of a node of the tree are in the tree, one rank down. */
  lemma MateChildrenRanked(n: MoveNode, nodes: set<MoveNode>, rank: map<MoveNode, nat>)
    requires n in nodes && Ranked(nodes, rank)
    ensures forall j :: 0 <= j < |MateChildren(n.children)| ==>
      MateChildren(n.children)[j] in nodes && MateChildren(n.children)[j] in rank && rank[MateChildren(n.children)[j]] < rank[n]
  {
    var kids := MateChildren(n.children);
    forall j | 0 <= j < |kids| ensures kids[j] in nodes && kids[j] in rank && rank[kids[j]] < rank[n] {
      assert kids[j] in n.children;
    }
  }

  /** The distance to mate of each of `kids`, one level below their parent. */
  ghost function Dists(kids: seq<MoveNode>, childDepth: int, nodes: set<MoveNode>, rank: map<MoveNode, nat>): (r: seq<Depth>)
    reads nodes
    requires Ranked(nodes, rank)
    ensures |r| == |kids| && forall i :: 0 <= i < |kids| && kids[i] in nodes ==> r[i] == BestDepth(kids[i], childDepth, nodes, rank)
  {
    if kids == [] then []
    else [if kids[0] in nodes then BestDepth(kids[0], childDepth, nodes, rank) else Infinite] + Dists(kids[1..], childDepth, nodes, rank)
  }

  /** None of the first `bound` distances is nearer than `best`. */
  predicate Below(ds: seq<Depth>, bound: nat, best: Depth)
  {
    bound <= |ds| && forall j :: 0 <= j < bound ==> AtLeast(ds[j], best)
  }

  /** Every entry of `lines` is the route of the child `src` names, among the first `bound`. */
  ghost predicate Entries(lines: map<string, Route>, src: map<string, nat>, moves: seq<string>, ds: seq<Depth>,
                          bound: nat, childDepth: int)
  {
    bound <= |moves| == |ds| && lines.Keys <= src.Keys &&
    forall k :: k in lines ==>
      src[k] < bound && moves[src[k]] == k && lines[k].best == ds[src[k]] &&
      Levels(lines[k], childDepth) && Pruned(lines[k])
  }

  /** Every child among the first `bound` at distance `best` has its entry. */
  predicate Complete(lines: map<string, Route>, moves: seq<string>, ds: seq<Depth>, bound: nat, best: Depth)
  {
    bound <= |moves| == |ds| &&
    forall j :: 0 <= j < bound && ds[j] == best ==> moves[j] in lines
  }

  /**
   * The shape of a route dictionary: every level records its depth, one
   * more than its parent's; the entries below the top are pruned; with
   * `pruned`, so is the top; and every key is one of `moves`.
   */
  ghost predicate Shape(r: Route, depth: int, pruned: bool, moves: seq<string>)
  {
    Levels(r, depth) && (pruned ==> Pruned(r)) &&
    forall k :: k in r.lines ==> Pruned(r.lines[k]) && k in moves
  }

  /** What the two loops of `_get_route_to_checkmate` leave makes a well-shaped route. */
  lemma RouteShape(route: Route, depth: int, pruned: bool, ms: seq<string>, ds: seq<Depth>, src: map<string, nat>)
    requires route.depth == depth
    requires Entries(route.lines, src, ms, ds, |ms|, depth + 1)
    requires pruned ==> forall k :: k in route.lines ==> route.lines[k].best == route.best
    ensures Shape(route, depth, pruned, ms)
  {
    forall k | k in route.lines ensures k in ms {
      assert ms[src[k]] == k;
    }
  }

  /** A node that is not a childless mate is as far as the running minimum over its mating children. */
  lemma BestOfMateChildren(n: MoveNode, depth: int, nodes: set<MoveNode>, rank: map<MoveNode, nat>)
    requires n in nodes && Ranked(nodes, rank) && !(n.children == [] && n.isCheckmate)
    ensures forall j :: 0 <= j < |MateChildren(n.children)| ==>
      MateChildren(n.children)[j] in nodes && rank[MateChildren(n.children)[j]] < rank[n]
    ensures BestDepth(n, depth, nodes, rank) == MinFold(Dists(MateChildren(n.children), depth + 1, nodes, rank))
  {
    MateChildrenRanked(n, nodes, rank);
    var ds := Dists(MateChildren(n.children), depth + 1, nodes, rank);
    assert ds[..|ds|] == ds;
    BestIsFold(n, |ds|, depth + 1, nodes, rank);
  }

  /** The running minimum of the first loop, taken left to right. */
  function MinFold(ds: seq<Depth>): (r: Depth)
  {
    if ds == [] then Infinite else Min(MinFold(ds[..|ds| - 1]), ds[|ds| - 1])
  }

  /** The running minimum is at most every distance, and is one of them unless it is infinite. */
  lemma {:induction false} MinFoldIsLeast(ds: seq<Depth>)
    ensures forall i :: 0 <= i < |ds| ==> AtLeast(ds[i], MinFold(ds))
    ensures MinFold(ds) == Infinite || MinFold(ds) in ds
  {
    if ds != [] {
      var front := ds[..|ds| - 1];
      MinFoldIsLeast(front);
      forall i | 0 <= i < |ds| ensures AtLeast(ds[i], MinFold(ds)) {
        if i < |ds| - 1 {
          assert ds[i] == front[i];
          AtLeastTransitive(ds[i], MinFold(front), MinFold(ds));
        }
      }
    }
  }

  /** The distance of a node's first `i` mating children is the running minimum of their distances. */
  lemma {:induction false} BestIsFold(n: MoveNode, i: nat, childDepth: int, nodes: set<MoveNode>, rank: map<MoveNode, nat>)
    requires n in nodes && Ranked(nodes, rank) && i <= |MateChildren(n.children)|
    ensures BestUpTo(n, i, childDepth, nodes, rank) == MinFold(Dists(MateChildren(n.children), childDepth, nodes, rank)[..i])
  {
    var ds := Dists(MateChildren(n.children), childDepth, nodes, rank);
    if i > 0 {
      BestIsFold(n, i - 1, childDepth, nodes, rank);
      assert ds[..i][..i - 1] == ds[..i - 1];
    }
  }

  /** One turn of the first loop keeps its invariants. */
  lemma CollectStep(lines: map<string, Route>, src: map<string, nat>, ms: seq<string>, ds: seq<Depth>, i: nat,
                    childDepth: int, pruned: bool, prev: Depth, sub: Route,
                    lines': map<string, Route>, src': map<string, nat>, best: Depth)
    requires Entries(lines, src, ms, ds, i, childDepth) && Below(ds, i, prev) && i < |ms|
    requires prev == MinFold(ds[..i])
    requires pruned && Distinct(ms) ==> Complete(lines, ms, ds, i, prev)
    requires sub.best == ds[i] && Levels(sub, childDepth) && Pruned(sub)
    requires AtLeast(prev, ds[i]) ==> best == ds[i] && lines' == lines[ms[i] := sub] && src' == src[ms[i] := i]
    requires !AtLeast(prev, ds[i]) && !pruned ==> best == prev && lines' == lines[ms[i] := sub] && src' == src[ms[i] := i]
    requires !AtLeast(prev, ds[i]) && pruned ==> best == prev && lines' == lines[ms[i] := sub] - {ms[i]} && src' == src[ms[i] := i] - {ms[i]}
    ensures Entries(lines', src', ms, ds, i + 1, childDepth) && Below(ds, i + 1, best)
    ensures best == MinFold(ds[..i + 1])
    ensures pruned && Distinct(ms) ==> Complete(lines', ms, ds, i + 1, best)
  {
    assert ds[..i + 1][..i] == ds[..i];
    BelowStep(ds, i, prev, best);
    if pruned && Distinct(ms) {
      forall j | 0 <= j < i + 1 && ds[j] == best ensures ms[j] in lines' {
        if j < i {
          assert ms[j] != ms[i];
        }
      }
    }
  }

  /** One step of the running minimum keeps every earlier distance at or beyond it. */
  lemma BelowStep(ds: seq<Depth>, i: nat, prev: Depth, best: Depth)
    requires Below(ds, i, prev) && i < |ds| && best == Min(prev, ds[i])
    ensures Below(ds, i + 1, best)
  {
    forall j | 0 <= j < i + 1 ensures AtLeast(ds[j], best) {
      if j < i {
        AtLeastTransitive(ds[j], prev, best);
      }
    }
  }

  lemma AtLeastTransitive(a: Depth, b: Depth, c: Depth)
    requires AtLeast(a, b) && AtLeast(b, c)
    ensures AtLeast(a, c)
  {
  }

  /** The second loop of `_get_route_to_checkmate`: drop every entry farther than `best`. */
  method PruneLines(moves: seq<string>, lines: map<string, Route>, best: Depth, ghost src: map<string, nat>,
                    ghost ds: seq<Depth>, ghost childDepth: int)
    returns (kept: map<string, Route>)
    requires Entries(lines, src, moves, ds, |moves|, childDepth)
    requires Below(ds, |moves|, best)
    ensures Entries(kept, src, moves, ds, |moves|, childDepth)
    ensures forall k :: k in kept ==> kept[k].best == best
    ensures Distinct(moves) && Complete(lines, moves, ds, |moves|, best) ==> Complete(kept, moves, ds, |moves|, best)
  {
    ghost var complete := Distinct(moves) && Complete(lines, moves, ds, |moves|, best);
    kept := lines;
    var j := 0;
    while j < |moves|
      invariant 0 <= j <= |moves|
      invariant kept.Keys <= lines.Keys && forall k :: k in kept ==> kept[k] == lines[k]
      invariant forall k :: k in kept ==> src[k] < j ==> !Greater(kept[k].best, best)
      invariant complete ==> Complete(kept, moves, ds, |moves|, best)
    {
      var move := moves[j];
      if move in kept && Greater(kept[move].best, best) {
        kept := kept - {move};
      }
      j := j + 1;
    }
  }
}
