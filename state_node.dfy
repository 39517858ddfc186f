/**
 * `GameStateNode` (selene_chess_bot/alpha_zero/node.py): one position of the
 * Monte Carlo search graph, with its visit counter, its parents and children,
 * and the moves tried from it so far.
 *
 * A position hash (`board_hash`) is compared and used as a key, never
 * inspected; it is kept here as a string of its bytes.
 */
module SearchGraph {
  import opened Python
  import opened Notation

  /** The `board_hash` bytes of a position. */
  type BoardHash = string

  /** One entry of a `children` dictionary: its key and the child node. */
  datatype Child = Child(key: string, node: GameStateNode)

  /** The keys of a dictionary's entries, in insertion order. */
  function Keys(entries: seq<Child>): (r: seq<string>)
    ensures |r| == |entries| && forall i :: 0 <= i < |entries| ==> r[i] == entries[i].key
  {
    if entries == [] then [] else [entries[0].key] + Keys(entries[1..])
  }

  /** `d[key]`: the node stored under `key`, if any. */
  function Lookup(entries: seq<Child>, key: string): (r: Option<GameStateNode>)
    ensures r.Some? <==> key in Keys(entries)
    ensures r.Some? ==> Child(key, r.value) in entries
  {
    if entries == [] then None
    else if entries[0].key == key then Some(entries[0].node)
    else Lookup(entries[1..], key)
  }

  /**
   * `d[key] = node`: an existing key keeps its place and gets the new node,
   * a new key goes at the end.
   */
  function Put(entries: seq<Child>, key: string, node: GameStateNode): (r: seq<Child>)
    ensures Keys(r) == if key in Keys(entries) then Keys(entries) else Keys(entries) + [key]
    ensures Lookup(r, key) == Some(node)
    ensures forall k :: k != key ==> Lookup(r, k) == Lookup(entries, k)
  {
    if entries == [] then [Child(key, node)]
    else
      assert Keys(entries) == [entries[0].key] + Keys(entries[1..]);
      if entries[0].key == key then
        var r := [Child(key, node)] + entries[1..];
        assert r[1..] == entries[1..];
        assert Keys(r) == [key] + Keys(entries[1..]);
        r
      else
        var rest := Put(entries[1..], key, node);
        var r := [entries[0]] + rest;
        assert r[0] == entries[0] && r[1..] == rest;
        assert Keys(r) == [entries[0].key] + Keys(rest);
        r
  }

  /** No key occurs twice. */
  predicate DistinctKeys(entries: seq<Child>)
  {
    forall i, j :: 0 <= i < j < |entries| ==> entries[i].key != entries[j].key
  }

  /** A dictionary built by `Put` never holds a key twice. */
  lemma {:induction false} PutKeepsKeysDistinct(entries: seq<Child>, key: string, node: GameStateNode)
    requires DistinctKeys(entries)
    ensures DistinctKeys(Put(entries, key, node))
  {
    var r := Put(entries, key, node);
    assert Keys(r) == if key in Keys(entries) then Keys(entries) else Keys(entries) + [key];
    forall i, j | 0 <= i < j < |r| ensures r[i].key != r[j].key {
      assert Keys(r)[i] == r[i].key && Keys(r)[j] == r[j].key;
      if key !in Keys(entries) && j == |entries| {
        assert Keys(entries)[i] == r[i].key;
      } else {
        assert Keys(entries)[i] == r[i].key && Keys(entries)[j] == r[j].key;
        assert entries[i].key == r[i].key && entries[j].key == r[j].key;
      }
    }
  }

  class GameStateNode {
    /** The `parents` set, in the order the parents were added. */
    var parents: seq<GameStateNode>
    /** The `children` dictionary, in insertion order. */
    var children: seq<Child>
    const boardHash: BoardHash
    const isGameTerminated: bool
    const result: int
    const fen: string
    const playerTurn: Color
    var numVisits: int
    const expandableMoves: set<string>
    var exploredMoves: set<string>

    /** A fresh node: no visits, no parents, no children, nothing explored. */
    constructor (fen: string, result: int, boardHash: BoardHash, playerTurn: Color,
                 isGameTerminated: bool, expandableMoves: set<string>)
      ensures this.fen == fen && this.result == result && this.boardHash == boardHash
      ensures this.playerTurn == playerTurn && this.isGameTerminated == isGameTerminated
      ensures this.expandableMoves == expandableMoves
      ensures parents == [] && children == [] && numVisits == 0 && exploredMoves == {}
    {
      this.fen := fen;
      this.result := result;
      this.boardHash := boardHash;
      this.playerTurn := playerTurn;
      this.isGameTerminated := isGameTerminated;
      this.expandableMoves := expandableMoves;
      parents := [];
      children := [];
      numVisits := 0;
      exploredMoves := {};
    }

    /** The `is_fully_expanded` property: as many moves explored as there are to explore. */
    predicate IsFullyExpanded()
      reads this
    {
      |expandableMoves| == |exploredMoves|
    }

    /** `add_explored_move`: the move is added to the explored set. */
    method AddExploredMove(move: string)
      modifies this
      ensures exploredMoves == old(exploredMoves) + {move}
      ensures parents == old(parents) && children == old(children) && numVisits == old(numVisits)
    {
      exploredMoves := exploredMoves + {move};
    }

    /** `add_parent`: `None` is refused; any other node joins the parent set. */
    method AddParent(parent: GameStateNode?) returns (added: bool)
      modifies this
      ensures added <==> parent != null
      ensures parent == null ==> parents == old(parents)
      ensures parent != null ==> parents == if parent in old(parents) then old(parents) else old(parents) + [parent]
      ensures children == old(children) && numVisits == old(numVisits) && exploredMoves == old(exploredMoves)
    {
      if parent == null {
        return false;
      }
      if parent !in parents {
        parents := parents + [parent];
      }
      return true;
    }

    /** `add_child`: the child is stored under `move`; the other entries stay. */
    method AddChild(move: string, child: GameStateNode) returns (added: bool)
      modifies this
      ensures added && children == Put(old(children), move, child)
      ensures parents == old(parents) && numVisits == old(numVisits) && exploredMoves == old(exploredMoves)
    {
      children := Put(children, move, child);
      return true;
    }

    /** `increment_visits`. */
    method IncrementVisits()
      modifies this
      ensures numVisits == old(numVisits) + 1
      ensures parents == old(parents) && children == old(children) && exploredMoves == old(exploredMoves)
    {
      numVisits := numVisits + 1;
    }

    /**
     * `get_untried_move`: some move to explore that was not explored yet
     * (the set's iteration order is not fixed, so neither is which one), or
     * `False` — here `None` — when every one was.
     */
    method GetUntriedMove() returns (r: Option<string>)
      ensures r.Some? ==> r.value in expandableMoves && r.value !in exploredMoves
      ensures r.None? <==> expandableMoves <= exploredMoves
    {
      var rest := expandableMoves;
      while rest != {}
        invariant rest <= expandableMoves
        invariant forall m :: m in expandableMoves && m !in rest ==> m in exploredMoves
        decreases |rest|
      {
        var move :| move in rest;
        if move !in exploredMoves {
          return Some(move);
        }
        rest := rest - {move};
      }
      return None;
    }

    /**
     * `backpropagate`: one more visit for this node and for every node on the
     * chain of first parents above it. `chain` is that chain, from this node
     * up to a node without parents; the loop ends only when there is one.
     */
    method Backpropagate(ghost chain: seq<GameStateNode>)
      requires FirstParentChain(this, chain)
      modifies set i | 0 <= i < |chain| :: chain[i]
      ensures forall i :: 0 <= i < |chain| ==> chain[i].numVisits == old(chain[i].numVisits) + 1
      ensures forall i :: 0 <= i < |chain| ==>
        chain[i].parents == old(chain[i].parents) && chain[i].children == old(chain[i].children)
    {
      ChainIsSimple(chain);
      var node: GameStateNode? := this;
      ghost var k := 0;
      while node != null
        invariant 0 <= k <= |chain|
        invariant node == if k < |chain| then chain[k] else null
        invariant forall i :: 0 <= i < k ==> chain[i].numVisits == old(chain[i].numVisits) + 1
        invariant forall i :: k <= i < |chain| ==> chain[i].numVisits == old(chain[i].numVisits)
        invariant forall i :: 0 <= i < |chain| ==>
          chain[i].parents == old(chain[i].parents) && chain[i].children == old(chain[i].children)
        decreases |chain| - k
      {
        node.IncrementVisits();
        node := FirstParent(node);
        k := k + 1;
      }
    }
  }

  /** `next(iter(node.parents), None)`. */
  function FirstParent(node: GameStateNode): (r: GameStateNode?)
    reads node
    ensures r == null <==> node.parents == []
    ensures r != null ==> r in node.parents
  {
    if node.parents == [] then null else node.parents[0]
  }

  /** `chain` starts at `n`, each node's first parent is the next one, and the last has no parents. */
  ghost predicate FirstParentChain(n: GameStateNode, chain: seq<GameStateNode>)
    reads set i | 0 <= i < |chain| :: chain[i]
  {
    |chain| > 0 && chain[0] == n && chain[|chain| - 1].parents == [] &&
    forall i :: 0 <= i < |chain| - 1 ==> chain[i].parents != [] && chain[i].parents[0] == chain[i + 1]
  }

  /**
   * A first-parent chain that ends never visits a node twice: a repeated
   * node would repeat the whole chain after it, and so never reach a node
   * without parents.
   */
  lemma ChainIsSimple(chain: seq<GameStateNode>)
    requires |chain| > 0 && FirstParentChain(chain[0], chain)
    ensures forall i, j :: 0 <= i < j < |chain| ==> chain[i] != chain[j]
  {
    forall i, j | 0 <= i < j < |chain| ensures chain[i] != chain[j] {
      if chain[i] == chain[j] {
        ChainRepeats(chain, i, j, |chain| - 1 - j);
        assert false;
      }
    }
  }

  /** Two equal places of a first-parent chain stay equal as far as the chain goes. */
  lemma {:induction false} ChainRepeats(chain: seq<GameStateNode>, i: nat, j: nat, k: nat)
    requires |chain| > 0 && FirstParentChain(chain[0], chain)
    requires i < j && j + k < |chain| && chain[i] == chain[j]
    ensures chain[i + k] == chain[j + k]
  {
    if k > 0 {
      ChainRepeats(chain, i, j, k - 1);
    }
  }

  /**
   * With every explored move one of the moves to explore, the node is fully
   * expanded exactly when no untried move is left.
   */
  lemma FullyExpandedIffNothingUntried(n: GameStateNode)
    requires n.exploredMoves <= n.expandableMoves
    ensures n.IsFullyExpanded() <==> n.expandableMoves <= n.exploredMoves
  {
    if n.expandableMoves <= n.exploredMoves {
      assert n.expandableMoves == n.exploredMoves;
    }
    if n.IsFullyExpanded() && !(n.expandableMoves <= n.exploredMoves) {
      var m :| m in n.expandableMoves && m !in n.exploredMoves;
      assert n.exploredMoves <= n.expandableMoves - {m};
      SubsetSmaller(n.exploredMoves, n.expandableMoves - {m});
      assert false;
    }
  }

  /** A subset is no larger than its superset. */
  lemma {:induction false} SubsetSmaller<T>(a: set<T>, b: set<T>)
    requires a <= b
    ensures |a| <= |b|
    decreases |b|
  {
    if a != {} {
      var x :| x in a;
      SubsetSmaller(a - {x}, b - {x});
    }
  }
}
