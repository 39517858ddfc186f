/**
 * `StateManager` (selene_chess_bot/alpha_zero/state_manager.py): the table
 * from position hashes to search nodes, so that a position reached twice
 * shares one node.
 */
module StateTable {
  import opened Notation
  import opened SearchGraph

  class StateManager {
    var stateDict: map<BoardHash, GameStateNode>

    constructor ()
      ensures stateDict == map[]
    {
      stateDict := map[];
    }

    /**
     * `get_state`: the stored node when the hash is known; otherwise a new
     * node for the position, stored under the hash and returned.
     */
    method GetState(boardHash: BoardHash, playerTurn: Color) returns (node: GameStateNode)
      modifies this
      ensures boardHash in old(stateDict) ==> node == old(stateDict)[boardHash] && stateDict == old(stateDict)
      ensures boardHash !in old(stateDict) ==>
        fresh(node) && stateDict == old(stateDict)[boardHash := node] && Fresh(node, boardHash, playerTurn)
    {
      if boardHash in stateDict {
        return stateDict[boardHash];
      } else {
        var newState := NewState(boardHash, playerTurn);
        stateDict := stateDict[boardHash := newState];
        return newState;
      }
    }

    /** `add_state`: store a new node unless the hash is known, then return the stored node. */
    method AddState(boardHash: BoardHash, playerTurn: Color) returns (node: GameStateNode)
      modifies this
      ensures boardHash in old(stateDict) ==> node == old(stateDict)[boardHash] && stateDict == old(stateDict)
      ensures boardHash !in old(stateDict) ==>
        fresh(node) && stateDict == old(stateDict)[boardHash := node] && Fresh(node, boardHash, playerTurn)
      ensures stateDict[boardHash] == node
    {
      if boardHash !in stateDict {
        var newState := NewState(boardHash, playerTurn);
        stateDict := stateDict[boardHash := newState];
      }
      return stateDict[boardHash];
    }
  }

  /** A node for the position with no visits, links or explored moves. */
  predicate Fresh(node: GameStateNode, boardHash: BoardHash, playerTurn: Color)
    reads node
  {
    node.boardHash == boardHash && node.playerTurn == playerTurn &&
    node.numVisits == 0 && node.parents == [] && node.children == [] && node.exploredMoves == {}
  }

  /** `GameStateNode(board_hash, player_turn)`: the other fields are not given at this call. */
  method NewState(boardHash: BoardHash, playerTurn: Color) returns (node: GameStateNode)
    ensures fresh(node) && Fresh(node, boardHash, playerTurn)
  {
    node := new GameStateNode("", 0, boardHash, playerTurn, false, {});
  }

  /**
   * Asking a new table twice for the same hash gives one node, and the
   * table keeps a single entry.
   */
  method AddStateTwice(boardHash: BoardHash, playerTurn: Color, other: Color)
    returns (first: GameStateNode, second: GameStateNode, size: nat)
    ensures first == second && size == 1
    ensures first.boardHash == boardHash && first.playerTurn == playerTurn
  {
    var manager := new StateManager();
    first := manager.AddState(boardHash, playerTurn);
    second := manager.AddState(boardHash, other);
    size := |manager.stateDict|;
  }

  /** `get_state` and `add_state` agree: whichever is asked first, the other returns the same node. */
  method GetThenAdd(boardHash: BoardHash, playerTurn: Color) returns (got: GameStateNode, added: GameStateNode, size: nat)
    ensures got == added && size == 1 && got.numVisits == 0
  {
    var manager := new StateManager();
    got := manager.GetState(boardHash, playerTurn);
    added := manager.AddState(boardHash, playerTurn);
    size := |manager.stateDict|;
  }
}
