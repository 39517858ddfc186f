/**
 * `CheckmateDetector` (selene_chess_bot/game/checkmate_detector/checkmate_detector.py):
 * a bounded search for forced mates that starts from every check of a
 * position. On the mating side's turn only checks are tried, on the
 * defender's turn every legal reply; the search tree is made of `MoveNode`s
 * and the routes to mate are read off it.
 *
 * The chess rules (parsing a FEN string, legal moves, playing a move, the
 * game result) reach the model through the `Oracle` of `CheckDetection`.
 */
module MateSearch {
  import opened Python
  import opened Notation
  import opened CheckDetection
  import opened MateTree

  // ------------------------------------------------------------ the search

  /** `_get_moves_for_simulation`: the checks on the mating side's turn, all legal moves otherwise. */
  function SimulatedMoves(o: Oracle, seeking: Color, fen: string): seq<string>
  {
    if o.turn(fen) == seeking then ChecksOf(o, fen) else o.legalMoves(fen)
  }

  /** On the mating side's turn the moves tried are exactly its legal checks, in the legal-move order. */
  lemma OnlyChecksForTheMatingSide(o: Oracle, seeking: Color, fen: string)
    requires o.turn(fen) == seeking
    ensures IsSubsequence(SimulatedMoves(o, seeking, fen), o.legalMoves(fen))
    ensures forall m :: m in SimulatedMoves(o, seeking, fen) <==> m in o.legalMoves(fen) && o.givesCheck(fen, m)
  {
  }

  /** On the defender's turn every legal move is tried. */
  lemma EveryReplyForTheDefender(o: Oracle, seeking: Color, fen: string)
    requires o.turn(fen) != seeking
    ensures SimulatedMoves(o, seeking, fen) == o.legalMoves(fen)
  {
  }

  /** How many more plies the search may go down from `depth`. */
  function Budget(maxDepth: int, depth: int): nat
  {
    if depth > maxDepth then 0 else maxDepth - depth + 1
  }

  /**
   * What `_find_force_checkmate` returns for the position `fen`, reached at
   * `depth` by a move of `mover`: false past the maximum depth; true when
   * the game is won by the mating side; false when the mating side is to
   * move and has no check; otherwise all replies (after a move of the mating
   * side) or some reply (after a move of the defender) must force mate.
   */
  function Forced(o: Oracle, seeking: Color, maxDepth: int, fen: string, depth: int, mover: Color): bool
    decreases Budget(maxDepth, depth), 1, 0
  {
    if depth > maxDepth then false
    else if o.wonBy(fen, seeking) then true
    else
      var moves := SimulatedMoves(o, seeking, fen);
      if moves == [] && o.turn(fen) == seeking then false
      else Verdict(seeking == mover, Replies(o, seeking, maxDepth, fen, depth, moves))
  }

  /** The verdicts of the replies `moves` from `fen`, one level down. */
  function Replies(o: Oracle, seeking: Color, maxDepth: int, fen: string, depth: int, moves: seq<string>): (r: seq<bool>)
    requires depth <= maxDepth
    decreases Budget(maxDepth, depth), 0, |moves|
    ensures |r| == |moves|
    ensures forall i :: 0 <= i < |moves| ==> r[i] == Forced(o, seeking, maxDepth, o.play(fen, moves[i]), depth + 1, o.turn(fen))
  {
    if moves == [] then []
    else
      [Forced(o, seeking, maxDepth, o.play(fen, moves[0]), depth + 1, o.turn(fen))]
      + Replies(o, seeking, maxDepth, fen, depth, moves[1..])
  }

  /** The search never reports a mate beyond the maximum depth. */
  lemma {:induction false} NothingPastMaximumDepth(o: Oracle, seeking: Color, maxDepth: int, fen: string, depth: int, mover: Color)
    requires depth > maxDepth
    ensures !Forced(o, seeking, maxDepth, fen, depth, mover)
  {
  }

  /** A position the mating side has already won counts at once, whatever lies below. */
  lemma WonPositionIsForced(o: Oracle, seeking: Color, maxDepth: int, fen: string, depth: int, mover: Color)
    requires depth <= maxDepth && o.wonBy(fen, seeking)
    ensures Forced(o, seeking, maxDepth, fen, depth, mover)
  {
  }

  /**
   * After a move of the mating side, the position forces mate exactly when
   * every reply of the defender does (vacuously so when it has none).
   */
  lemma AllRepliesMustMate(o: Oracle, seeking: Color, maxDepth: int, fen: string, depth: int)
    requires depth <= maxDepth && !o.wonBy(fen, seeking) && o.turn(fen) != seeking
    ensures Forced(o, seeking, maxDepth, fen, depth, seeking) <==>
      forall m :: m in o.legalMoves(fen) ==> Forced(o, seeking, maxDepth, o.play(fen, m), depth + 1, o.turn(fen))
  {
    var moves := o.legalMoves(fen);
    var r := Replies(o, seeking, maxDepth, fen, depth, moves);
    assert forall m :: m in moves ==> exists i :: 0 <= i < |moves| && moves[i] == m;
  }

  /**
   * After a move of the defender, the position forces mate exactly when
   * some check of the mating side does.
   */
  lemma SomeCheckMustMate(o: Oracle, seeking: Color, maxDepth: int, fen: string, depth: int, mover: Color)
    requires depth <= maxDepth && !o.wonBy(fen, seeking) && o.turn(fen) == seeking && mover != seeking
    ensures Forced(o, seeking, maxDepth, fen, depth, mover) <==>
      exists m :: m in ChecksOf(o, fen) && Forced(o, seeking, maxDepth, o.play(fen, m), depth + 1, seeking)
  {
    var moves := ChecksOf(o, fen);
    var r := Replies(o, seeking, maxDepth, fen, depth, moves);
    if Forced(o, seeking, maxDepth, fen, depth, mover) {
      var i :| 0 <= i < |r| && r[i];
      assert moves[i] in moves;
    }
  }

  // ------------------------------------------------ a stalemate is no mate

  /**
   * As written, a defender left without a legal reply after a move of the
   * mating side that does not win the game (a stalemate) counts as mated:
   * `children_forced_checkmate` asks `all` of an empty list of children.
   */
  lemma StalemateCountsAsMate(o: Oracle, seeking: Color, maxDepth: int, fen: string, depth: int)
    requires depth <= maxDepth && !o.wonBy(fen, seeking) && o.turn(fen) != seeking && o.legalMoves(fen) == []
    ensures Forced(o, seeking, maxDepth, fen, depth, seeking)
  {
    AllRepliesMustMate(o, seeking, maxDepth, fen, depth);
  }

  /**
   * The search as `_find_force_checkmate` means it: a position where the side
   * to move has no move tried and the game is not won is no mate, whichever
   * side is to move.
   */
  function ForcedFixed(o: Oracle, seeking: Color, maxDepth: int, fen: string, depth: int, mover: Color): bool
    decreases Budget(maxDepth, depth), 1, 0
  {
    if depth > maxDepth then false
    else if o.wonBy(fen, seeking) then true
    else
      var moves := SimulatedMoves(o, seeking, fen);
      if moves == [] then false
      else Verdict(seeking == mover, RepliesFixed(o, seeking, maxDepth, fen, depth, moves))
  }

  /** The verdicts of `ForcedFixed` for the replies `moves` from `fen`, one level down. */
  function RepliesFixed(o: Oracle, seeking: Color, maxDepth: int, fen: string, depth: int, moves: seq<string>): (r: seq<bool>)
    requires depth <= maxDepth
    decreases Budget(maxDepth, depth), 0, |moves|
    ensures |r| == |moves|
    ensures forall i :: 0 <= i < |moves| ==> r[i] == ForcedFixed(o, seeking, maxDepth, o.play(fen, moves[i]), depth + 1, o.turn(fen))
  {
    if moves == [] then []
    else
      [ForcedFixed(o, seeking, maxDepth, o.play(fen, moves[0]), depth + 1, o.turn(fen))]
      + RepliesFixed(o, seeking, maxDepth, fen, depth, moves[1..])
  }

  /** With the fix, a stalemated defender is not mated. */
  lemma StalemateIsNoMate(o: Oracle, seeking: Color, maxDepth: int, fen: string, depth: int)
    requires depth <= maxDepth && !o.wonBy(fen, seeking) && o.turn(fen) != seeking && o.legalMoves(fen) == []
    ensures !ForcedFixed(o, seeking, maxDepth, fen, depth, seeking)
  {
  }

  /** The fix only withdraws verdicts: every mate it finds the search as written finds too. */
  lemma {:induction false} FixedMatesAreForced(o: Oracle, seeking: Color, maxDepth: int, fen: string, depth: int, mover: Color)
    ensures ForcedFixed(o, seeking, maxDepth, fen, depth, mover) ==> Forced(o, seeking, maxDepth, fen, depth, mover)
    decreases Budget(maxDepth, depth)
  {
    if depth <= maxDepth && !o.wonBy(fen, seeking) {
      var moves := SimulatedMoves(o, seeking, fen);
      if moves != [] {
        var fixed := RepliesFixed(o, seeking, maxDepth, fen, depth, moves);
        var written := Replies(o, seeking, maxDepth, fen, depth, moves);
        forall i | 0 <= i < |moves| ensures fixed[i] ==> written[i] {
          FixedMatesAreForced(o, seeking, maxDepth, o.play(fen, moves[i]), depth + 1, o.turn(fen));
        }
      }
    }
  }

  /** Children of `tree` are in it, one level below their parent and no deeper than `maxDepth`. */
  ghost predicate Closed(tree: set<MoveNode>, maxDepth: int)
    reads tree
  {
    forall n, i :: n in tree && 0 <= i < |n.children| ==>
      n.children[i] in tree && n.children[i].depth == n.depth + 1 && n.children[i].depth <= maxDepth
  }

  /** A node whose children lie in a closed tree closes it together with another closed tree. */
  lemma ClosedJoin(tree: set<MoveNode>, node: MoveNode, below: set<MoveNode>, maxDepth: int)
    requires Closed(tree, maxDepth) && Closed(below, maxDepth)
    requires forall k :: 0 <= k < |node.children| ==>
      node.children[k] in below && node.children[k].depth == node.depth + 1 && node.children[k].depth <= maxDepth
    ensures Closed(tree + {node} + below, maxDepth)
  {
  }

  /** A tree closed in this way is ranked by the depth left. */
  ghost function DepthRank(tree: set<MoveNode>, maxDepth: int): (rank: map<MoveNode, nat>)
    reads tree
    ensures Closed(tree, maxDepth) ==> Ranked(tree, rank)
  {
    map n | n in tree :: Budget(maxDepth, n.depth)
  }

  // ------------------------------------------------------------ the detector

  class CheckmateDetector {
    const initialFen: string
    const detectingMateFor: Color
    const maximumDepth: int
    const oracle: Oracle
    var roots: seq<MoveNode>
    var checkMates: seq<MoveNode>
    var routesToCheckmates: seq<RouteToMate>
    /** Every node the searches have built. */
    ghost var tree: set<MoveNode>

    /** The search tree is closed, its roots and mates are in it, and the mates are mate nodes. */
    ghost predicate Valid()
      reads this, tree
    {
      Closed(tree, maximumDepth) &&
      (forall i :: 0 <= i < |roots| ==> roots[i] in tree) &&
      forall i :: 0 <= i < |checkMates| ==> checkMates[i] in tree && checkMates[i].isCheckmate
    }

    constructor (fen: string, detectingMateFor: Color, maximumDepth: int, o: Oracle)
      ensures initialFen == fen && this.detectingMateFor == detectingMateFor
      ensures this.maximumDepth == maximumDepth && oracle == o
      ensures roots == [] && checkMates == [] && routesToCheckmates == []
      ensures Valid()
    {
      initialFen := fen;
      this.detectingMateFor := detectingMateFor;
      this.maximumDepth := maximumDepth;
      oracle := o;
      roots := [];
      checkMates := [];
      routesToCheckmates := [];
      tree := {};
    }

    /** The `is_checkmate` property: some forced mate was found. */
    function IsCheckmate(): (r: bool)
      reads this
      ensures r <==> |checkMates| > 0
    {
      checkMates != []
    }

    /** `_get_moves_for_simulation`, through a fresh `CheckDetector` on the mating side's turn. */
    method MovesForSimulation(fen: string) returns (moves: seq<string>)
      ensures moves == SimulatedMoves(oracle, detectingMateFor, fen)
    {
      if oracle.turn(fen) == detectingMateFor {
        var detector := new CheckDetector(fen, true, oracle);
        moves := detector.checksOnPosition.value;
      } else {
        moves := oracle.legalMoves(fen);
      }
    }

    /**
     * `_find_force_checkmate`: the position `fen` was reached at `depth` by
     * the move of `parent`; one child node is added per move tried and
     * searched in turn, and the parent's verdict is stored and returned.
     * `built` is the subtree made below `parent`.
     */
    method FindForced(fen: string, depth: int, parent: MoveNode) returns (r: bool, ghost built: set<MoveNode>)
      requires parent.children == [] && !parent.isCheckmate
      requires parent.seekingMateFor == detectingMateFor && parent.depth == depth - 1
      modifies parent
      decreases Budget(maximumDepth, depth), 2
      ensures r == Forced(oracle, detectingMateFor, maximumDepth, fen, depth, parent.playerTurn)
      ensures parent.isCheckmate == r
      ensures fresh(built) && Closed(built, maximumDepth)
      ensures forall i :: 0 <= i < |parent.children| ==>
        parent.children[i] in built && parent.children[i].depth == depth && depth <= maximumDepth
    {
      built := {};
      if depth > maximumDepth {
        return false, built;
      }
      if oracle.wonBy(fen, detectingMateFor) {
        parent.isCheckmate := true;
        return true, built;
      }
      var moves := MovesForSimulation(fen);
      if moves == [] && oracle.turn(fen) == detectingMateFor {
        return false, built;
      }
      built := SearchReplies(fen, depth, parent, moves);
      r := parent.ChildrenForcedCheckmate();
    }

    /**
     * The loop of `_find_force_checkmate`: a child node per move, added to
     * `parent` and searched one level down, so that the children's flags are
     * the verdicts of the replies.
     */
    method SearchReplies(fen: string, depth: int, parent: MoveNode, moves: seq<string>) returns (ghost built: set<MoveNode>)
      requires parent.children == [] && !parent.isCheckmate
      requires parent.seekingMateFor == detectingMateFor && depth <= maximumDepth
      modifies parent
      decreases Budget(maximumDepth, depth), 1
      ensures Flags(parent.children) == Replies(oracle, detectingMateFor, maximumDepth, fen, depth, moves)
      ensures !parent.isCheckmate
      ensures fresh(built) && Closed(built, maximumDepth)
      ensures forall i :: 0 <= i < |parent.children| ==> parent.children[i] in built && parent.children[i].depth == depth
    {
      ghost var replies := Replies(oracle, detectingMateFor, maximumDepth, fen, depth, moves);
      built := {};
      var i := 0;
      while i < |moves|
        invariant 0 <= i <= |moves|
        invariant |parent.children| == i && !parent.isCheckmate
        invariant fresh(built) && parent !in built && Closed(built, maximumDepth)
        invariant forall j :: 0 <= j < i ==> parent.children[j] in built && parent.children[j].depth == depth
        invariant forall j :: 0 <= j < i ==> parent.children[j].isCheckmate == replies[j]
      {
        ghost var kids := parent.children;
        var node, below := SearchReply(fen, depth, parent, moves[i]);
        assert parent.children == kids + [node] && node.isCheckmate == replies[i];
        ClosedJoin(built, node, below, maximumDepth);
        built := built + {node} + below;
        i := i + 1;
      }
    }

    /** One turn of that loop: the child node for `move`, added to `parent` and searched one level down. */
    method SearchReply(fen: string, depth: int, parent: MoveNode, move: string) returns (node: MoveNode, ghost below: set<MoveNode>)
      requires depth <= maximumDepth
      modifies parent
      decreases Budget(maximumDepth, depth), 0
      ensures fresh(node) && node.depth == depth
      ensures parent.children == old(parent.children) + [node] && parent.isCheckmate == old(parent.isCheckmate)
      ensures node.isCheckmate == Forced(oracle, detectingMateFor, maximumDepth, oracle.play(fen, move), depth + 1, oracle.turn(fen))
      ensures fresh(below) && Closed(below, maximumDepth)
      ensures forall k :: 0 <= k < |node.children| ==>
        node.children[k] in below && node.children[k].depth == depth + 1 && depth + 1 <= maximumDepth
    {
      node := new MoveNode(move, parent, oracle.turn(fen), detectingMateFor, depth, false);
      parent.AddChild(node);
      var mate;
      mate, below := FindForced(oracle.play(fen, move), depth + 1, node);
    }

    /**
     * `find_force_checkmate`: one root node per check of the initial
     * position, searched from depth 1; the roots that force mate are
     * appended to the mates, and the result says whether any did.
     */
    method FindForceCheckmate() returns (found: bool)
      requires Valid()
      modifies this
      ensures Valid()
      ensures |roots| == |old(roots)| + |ChecksOf(oracle, initialFen)| && roots[..|old(roots)|] == old(roots)
      ensures forall i :: 0 <= i < |ChecksOf(oracle, initialFen)| ==> roots[|old(roots)| + i].move == ChecksOf(oracle, initialFen)[i]
      ensures |old(checkMates)| <= |checkMates| && checkMates[..|old(checkMates)|] == old(checkMates)
      ensures IsSubsequence(checkMates[|old(checkMates)|..], roots[|old(roots)|..])
      ensures found <==> |checkMates| > |old(checkMates)|
      ensures forall i :: |old(roots)| <= i < |roots| ==>
        (roots[i] in checkMates[|old(checkMates)|..] <==> RootForced(roots[i].move))
      ensures routesToCheckmates == old(routesToCheckmates)
    {
      var detector := new CheckDetector(initialFen, true, oracle);
      var checks := detector.checksOnPosition.value;
      var addedRoots, addedMates;
      ghost var built;
      found, addedRoots, addedMates, built := SearchChecks(checks);
      ghost var roots0, mates0 := roots, checkMates;
      roots := roots + addedRoots;
      checkMates := checkMates + addedMates;
      tree := ClosedUnion(tree, built, maximumDepth);
      assert roots[|roots0|..] == addedRoots && checkMates[|mates0|..] == addedMates;
      assert roots[..|roots0|] == roots0 && checkMates[..|mates0|] == mates0;
    }

    /**
     * The loop of `find_force_checkmate`: a root per check, in order, and
     * the roots that force mate among them, in the same order.
     */
    method SearchChecks(checks: seq<string>)
      returns (found: bool, addedRoots: seq<MoveNode>, addedMates: seq<MoveNode>, ghost built: set<MoveNode>)
      ensures |addedRoots| == |checks| && forall j :: 0 <= j < |checks| ==> addedRoots[j].move == checks[j]
      ensures IsSubsequence(addedMates, addedRoots)
      ensures found <==> addedMates != []
      ensures forall j :: 0 <= j < |checks| ==> (addedRoots[j] in addedMates <==> RootForced(checks[j]))
      ensures fresh(built) && Closed(built, maximumDepth)
      ensures forall j :: 0 <= j < |addedRoots| ==> addedRoots[j] in built
      ensures forall j :: 0 <= j < |addedMates| ==> addedMates[j] in built && addedMates[j].isCheckmate
    {
      found := false;
      addedRoots, addedMates, built := [], [], {};
      var i := 0;
      while i < |checks|
        invariant 0 <= i <= |checks| && |addedRoots| == i
        invariant forall j :: 0 <= j < i ==> addedRoots[j].move == checks[j]
        invariant IsSubsequence(addedMates, addedRoots)
        invariant found <==> addedMates != []
        invariant forall j :: 0 <= j < i ==> (addedRoots[j] in addedMates <==> RootForced(checks[j]))
        invariant fresh(built) && Closed(built, maximumDepth)
        invariant forall j :: 0 <= j < i ==> addedRoots[j] in built
        invariant forall j :: 0 <= j < |addedMates| ==> addedMates[j] in built && addedMates[j].isCheckmate
      {
        var root, isMate, below := SearchRoot(checks[i]);
        built := ClosedUnion(built, {root} + below, maximumDepth);
        SubsequenceExtend(addedMates, addedRoots, root);
        addedRoots := addedRoots + [root];
        if isMate {
          found := true;
          addedMates := addedMates + [root];
        }
        i := i + 1;
      }
    }

    /**
     * `get_routes_to_checkmates`: the routes are computed when none are
     * stored (the first call, or every call while the list is empty) and
     * kept; otherwise the stored list is returned, whatever is asked for.
     */
    method GetRoutesToCheckmates(shortest: bool) returns (r: seq<RouteToMate>, ghost all: seq<RouteToMate>)
      requires Valid()
      modifies this
      ensures Valid() && roots == old(roots) && checkMates == old(checkMates) && tree == old(tree)
      ensures routesToCheckmates == r
      ensures old(routesToCheckmates) != [] ==> r == old(routesToCheckmates)
      ensures old(routesToCheckmates) == [] ==> AllRoutes(all) && r == Shortest(shortest, all)
    {
      all := [];
      if routesToCheckmates == [] {
        routesToCheckmates, all := CollectRoutes(shortest);
      }
      r := routesToCheckmates;
    }

    /** `all` holds one route per mate, in order, from its move at depth 1. */
    ghost predicate AllRoutes(all: seq<RouteToMate>)
      reads this, tree
      requires Valid()
    {
      |all| == |checkMates| && RoutesOfFirst(all)
    }

    /** `all` holds the routes of the first |all| mates, in order. */
    ghost predicate RoutesOfFirst(all: seq<RouteToMate>)
      reads this, tree
      requires Valid()
    {
      |all| <= |checkMates| &&
      forall k :: 0 <= k < |all| ==>
        all[k].move == checkMates[k].move &&
        all[k].bestDepth == all[k].route.best == BestDepth(checkMates[k], 1, tree, DepthRank(tree, maximumDepth)) &&
        Levels(all[k].route, 1) && Pruned(all[k].route)
    }

    /** The route of the next mate extends the routes of the first ones. */
    lemma RoutesOfFirstStep(all: seq<RouteToMate>, route: RouteToMate)
      requires Valid() && RoutesOfFirst(all) && |all| < |checkMates|
      requires route.move == checkMates[|all|].move
      requires route.bestDepth == route.route.best == BestDepth(checkMates[|all|], 1, tree, DepthRank(tree, maximumDepth))
      requires Levels(route.route, 1) && Pruned(route.route)
      ensures RoutesOfFirst(all + [route])
    {
    }

    /**
     * `_get_routes_to_checkmates`: one route per mate. With `shortest`, a
     * route farther than the best seen so far is removed again at once, and
     * only the routes at the final best distance are returned.
     */
    method CollectRoutes(shortest: bool) returns (r: seq<RouteToMate>, ghost all: seq<RouteToMate>)
      requires Valid()
      ensures AllRoutes(all) && r == Shortest(shortest, all)
    {
      ghost var rank := DepthRank(tree, maximumDepth);
      var listOfRoutes: seq<RouteToMate> := [];
      var best := Infinite;
      all := [];
      var i := 0;
      while i < |checkMates|
        invariant 0 <= i <= |checkMates| && |all| == i
        invariant RoutesOfFirst(all)
        invariant Tracking(shortest, listOfRoutes, all, best)
      {
        var found := checkMates[i].GetRouteToCheckmate(tree, rank);
        var route := found.value;
        RoutesOfFirstStep(all, route);
        ghost var before, prev := listOfRoutes, best;
        listOfRoutes := listOfRoutes + [route];
        if shortest {
          RoutesStep(before, all, prev, route);
          if AtLeast(best, route.bestDepth) {
            best := route.bestDepth;
          } else {
            listOfRoutes := RemoveFirst(listOfRoutes, route).value;
          }
        }
        TrackingStep(shortest, before, all, prev, route, listOfRoutes, best);
        all := all + [route];
        i := i + 1;
      }
      if shortest {
        r := KeepBest(listOfRoutes, best);
      } else {
        r := listOfRoutes;
      }
    }

    /** Whether the check `check` of the initial position forces mate. */
    ghost predicate RootForced(check: string)
    {
      Forced(oracle, detectingMateFor, maximumDepth, oracle.play(initialFen, check), 1, oracle.turn(initialFen))
    }

    /** One turn of `find_force_checkmate`: a fresh root for `check`, searched from depth 1. */
    method SearchRoot(check: string) returns (root: MoveNode, isMate: bool, ghost below: set<MoveNode>)
      ensures fresh(root) && fresh(below) && root.move == check && root.depth == 0
      ensures root.isCheckmate == isMate && isMate == RootForced(check)
      ensures Closed({root} + below, maximumDepth)
    {
      root := new MoveNode(check, null, oracle.turn(initialFen), detectingMateFor, 0, false);
      isMate, below := FindForced(oracle.play(initialFen, check), 1, root);
    }
  }

  /** Two closed trees make a closed tree. */
  ghost function ClosedUnion(a: set<MoveNode>, b: set<MoveNode>, maxDepth: int): (r: set<MoveNode>)
    reads a, b
    requires Closed(a, maxDepth) && Closed(b, maxDepth)
    ensures r == a + b && Closed(r, maxDepth)
  {
    a + b
  }

  /** Appending to the longer list keeps a subsequence, and appending to both does too. */
  lemma {:induction false} SubsequenceExtend<T>(xs: seq<T>, ys: seq<T>, y: T)
    requires IsSubsequence(xs, ys)
    ensures IsSubsequence(xs, ys + [y]) && IsSubsequence(xs + [y], ys + [y])
    decreases |ys|
  {
    if xs == [] {
      assert xs + [y] == [y];
      SingletonSubsequence(ys, y);
    } else if xs[0] == ys[0] {
      SubsequenceExtend(xs[1..], ys[1..], y);
      assert (ys + [y])[1..] == ys[1..] + [y];
      assert (xs + [y])[1..] == xs[1..] + [y];
    } else {
      SubsequenceExtend(xs, ys[1..], y);
      assert (ys + [y])[1..] == ys[1..] + [y];
    }
  }

  /** `[y]` is a subsequence of anything ending in `y`. */
  lemma {:induction false} SingletonSubsequence<T>(ys: seq<T>, y: T)
    ensures IsSubsequence([y], ys + [y])
    decreases |ys|
  {
    if ys != [] {
      assert (ys + [y])[1..] == ys[1..] + [y];
      if ys[0] != y {
        SingletonSubsequence(ys[1..], y);
      }
    }
  }

  // ------------------------------------------------------------ the routes

  /** The 'best_depth' of each route, in order. */
  function Depths(routes: seq<RouteToMate>): (r: seq<Depth>)
    ensures |r| == |routes| && forall i :: 0 <= i < |routes| ==> r[i] == routes[i].bestDepth
  {
    if routes == [] then [] else [routes[0].bestDepth] + Depths(routes[1..])
  }

  /** The routes at distance `b`, in their order. */
  function Keep(routes: seq<RouteToMate>, b: Depth): (r: seq<RouteToMate>)
    ensures IsSubsequence(r, routes)
    ensures forall x :: x in r <==> x in routes && x.bestDepth == b
  {
    if routes == [] then []
    else
      var rest := Keep(routes[1..], b);
      assert forall x :: x in routes <==> x == routes[0] || x in routes[1..];
      if routes[0].bestDepth == b then [routes[0]] + rest else rest
  }

  /**
   * What `_get_routes_to_checkmates` returns for the routes `all`: all of
   * them, or with `shortest` those at the least distance among them.
   */
  function Shortest(shortest: bool, all: seq<RouteToMate>): seq<RouteToMate>
  {
    if shortest then Keep(all, MinFold(Depths(all))) else all
  }

  /** With `shortest`, exactly the routes no farther than any other are returned, in order. */
  lemma ShortestAreNearest(all: seq<RouteToMate>)
    ensures IsSubsequence(Shortest(true, all), all)
    ensures forall x :: x in Shortest(true, all) <==>
      x in all && forall y :: y in all ==> AtLeast(y.bestDepth, x.bestDepth)
  {
    var ds := Depths(all);
    MinFoldIsLeast(ds);
    var b := MinFold(ds);
    forall x | x in all && (forall y :: y in all ==> AtLeast(y.bestDepth, x.bestDepth))
      ensures x.bestDepth == b
    {
      if b != Infinite {
        var j :| 0 <= j < |ds| && ds[j] == b;
        assert all[j] in all;
      }
      var k :| 0 <= k < |all| && all[k] == x;
      assert AtLeast(ds[k], b);
    }
    forall x | x in all && x.bestDepth == b
      ensures forall y :: y in all ==> AtLeast(y.bestDepth, x.bestDepth)
    {
      forall y | y in all ensures AtLeast(y.bestDepth, b) {
        var k :| 0 <= k < |all| && all[k] == y;
        assert ds[k] == y.bestDepth;
      }
    }
  }

  /** The second loop of `_get_routes_to_checkmates`: keep the routes at distance `best`. */
  method KeepBest(routes: seq<RouteToMate>, best: Depth) returns (bestLines: seq<RouteToMate>)
    ensures bestLines == Keep(routes, best)
  {
    bestLines := [];
    var i := 0;
    while i < |routes|
      invariant 0 <= i <= |routes|
      invariant bestLines == Keep(routes[..i], best)
    {
      KeepAppend(routes[..i], routes[i], best);
      assert routes[..i + 1] == routes[..i] + [routes[i]];
      if routes[i].bestDepth == best {
        bestLines := bestLines + [routes[i]];
      }
      i := i + 1;
    }
    assert routes[..i] == routes;
  }

  /** The list kept so far and all routes so far have the same routes at every distance up to `best`. */
  ghost predicate Agree(kept: seq<RouteToMate>, all: seq<RouteToMate>, best: Depth)
  {
    forall b :: AtLeast(best, b) ==> Keep(kept, b) == Keep(all, b)
  }

  lemma {:induction false} KeepAppend(routes: seq<RouteToMate>, x: RouteToMate, b: Depth)
    ensures Keep(routes + [x], b) == Keep(routes, b) + (if x.bestDepth == b then [x] else [])
    decreases |routes|
  {
    if routes == [] {
      assert routes + [x] == [x];
    } else {
      assert (routes + [x])[1..] == routes[1..] + [x];
      KeepAppend(routes[1..], x, b);
    }
  }

  /** `list.remove` of a route at another distance leaves the routes at distance `b` as they were. */
  lemma {:induction false} KeepRemove(routes: seq<RouteToMate>, x: RouteToMate, b: Depth)
    requires x in routes && x.bestDepth != b
    ensures RemoveFirst(routes, x).Ok? && Keep(RemoveFirst(routes, x).value, b) == Keep(routes, b)
    decreases |routes|
  {
    if routes[0] != x {
      KeepRemove(routes[1..], x, b);
      var rest := RemoveFirst(routes[1..], x).value;
      assert ([routes[0]] + rest)[1..] == rest;
    }
  }

  /** One turn of the first loop of `_get_routes_to_checkmates` keeps the lists in agreement. */
  /** The bookkeeping of `_get_routes_to_checkmates` after the routes `all`: the routes kept and the best distance. */
  ghost predicate Tracking(shortest: bool, kept: seq<RouteToMate>, all: seq<RouteToMate>, best: Depth)
  {
    (shortest ==> best == MinFold(Depths(all)) && Agree(kept, all, best)) && (!shortest ==> kept == all)
  }

  /** One route more keeps the bookkeeping right, whether it improves on the best distance or is removed again. */
  lemma TrackingStep(shortest: bool, kept: seq<RouteToMate>, all: seq<RouteToMate>, best: Depth,
                     route: RouteToMate, kept': seq<RouteToMate>, best': Depth)
    requires Tracking(shortest, kept, all, best)
    requires !shortest ==> kept' == kept + [route]
    requires shortest && AtLeast(best, route.bestDepth) ==> kept' == kept + [route] && best' == route.bestDepth
    requires shortest && !AtLeast(best, route.bestDepth) ==>
               RemoveFirst(kept + [route], route) == Ok(kept') && best' == best
    ensures Tracking(shortest, kept', all + [route], best')
  {
    assert Depths(all + [route]) == Depths(all) + [route.bestDepth];
    if shortest {
      RoutesStep(kept, all, best, route);
    }
  }

  lemma RoutesStep(kept: seq<RouteToMate>, all: seq<RouteToMate>, best: Depth, route: RouteToMate)
    requires Agree(kept, all, best)
    ensures AtLeast(best, route.bestDepth) ==> Agree(kept + [route], all + [route], route.bestDepth)
    ensures !AtLeast(best, route.bestDepth) ==>
      RemoveFirst(kept + [route], route).Ok? && Agree(RemoveFirst(kept + [route], route).value, all + [route], best)
  {
    forall b ensures Keep(kept + [route], b) == Keep(kept, b) + (if route.bestDepth == b then [route] else [])
      && Keep(all + [route], b) == Keep(all, b) + (if route.bestDepth == b then [route] else [])
    {
      KeepAppend(kept, route, b);
      KeepAppend(all, route, b);
    }
    if AtLeast(best, route.bestDepth) {
      forall b | AtLeast(route.bestDepth, b)
        ensures Keep(kept + [route], b) == Keep(all + [route], b)
      {
        AtLeastTransitive(best, route.bestDepth, b);
      }
    } else {
      forall b | AtLeast(best, b)
        ensures RemoveFirst(kept + [route], route).Ok?
        ensures Keep(RemoveFirst(kept + [route], route).value, b) == Keep(all + [route], b)
      {
        KeepRemove(kept + [route], route, b);
      }
      assert route in kept + [route];
    }
  }
}
