/**
 * `Checkpoint` (selene_chess_bot/alpha_zero/checkpoint.py): the search graph
 * flattened into one record per node, breadth first from the root, with
 * parents and children written as position hashes; and the way back, which
 * makes one node per hash and relinks them by hash.
 *
 * Writing and reading the file is not modelled: the record list is what
 * the file holds.
 */
module Checkpoints {
  import opened Python
  import opened Notation
  import opened SearchGraph

  /** The dictionary `flatten_tree` writes for a node. */
  datatype NodeData = NodeData(
    fen: string,
    result: int,
    boardHash: BoardHash,
    playerTurn: Color,
    isGameTerminated: bool,
    expandableMoves: set<string>,
    parents: seq<BoardHash>,       // [p.board_hash for p in node.parents]
    children: seq<BoardHash>)      // [c.board_hash for c in node.children.values()]

  /** The hashes of `nodes`, in order. */
  function Hashes(nodes: seq<GameStateNode>): (r: seq<BoardHash>)
    ensures |r| == |nodes| && forall i :: 0 <= i < |nodes| ==> r[i] == nodes[i].boardHash
  {
    if nodes == [] then [] else [nodes[0].boardHash] + Hashes(nodes[1..])
  }

  /** `children.values()`, in insertion order. */
  function ChildNodes(entries: seq<Child>): (r: seq<GameStateNode>)
    ensures |r| == |entries| && forall i :: 0 <= i < |entries| ==> r[i] == entries[i].node
  {
    if entries == [] then [] else [entries[0].node] + ChildNodes(entries[1..])
  }

  /** The record of one node. */
  function Record(n: GameStateNode): NodeData
    reads n
  {
    NodeData(n.fen, n.result, n.boardHash, n.playerTurn, n.isGameTerminated, n.expandableMoves,
             Hashes(n.parents), Hashes(ChildNodes(n.children)))
  }

  /** The children of every node of `nodes` are in `nodes`. */
  ghost predicate Closed(nodes: set<GameStateNode>)
    reads nodes
  {
    forall n, i :: n in nodes && 0 <= i < |n.children| ==> n.children[i].node in nodes
  }

  /** The elements of `order` are pairwise distinct. */
  predicate Simple(order: seq<GameStateNode>)
  {
    forall i, j :: 0 <= i < j < |order| ==> order[i] != order[j]
  }

  /** The children of `n` in `cs` that are not in `visited`, in order. */
  function Unvisited(cs: seq<GameStateNode>, visited: set<GameStateNode>): (r: seq<GameStateNode>)
    ensures forall i :: 0 <= i < |r| ==> r[i] in cs && r[i] !in visited
    ensures forall i :: 0 <= i < |cs| && cs[i] !in visited ==> cs[i] in r
  {
    if cs == [] then []
    else
      (if cs[0] in visited then [] else [cs[0]]) + Unvisited(cs[1..], visited)
  }

  /** The inner loop of `flatten_tree`: queue every child not visited yet. */
  method EnqueueChildren(cs: seq<GameStateNode>, visited: set<GameStateNode>) returns (added: seq<GameStateNode>)
    ensures added == Unvisited(cs, visited)
  {
    added := [];
    var k := 0;
    while k < |cs|
      invariant 0 <= k <= |cs|
      invariant added == Unvisited(cs[..k], visited)
    {
      UnvisitedAppend(cs[..k], cs[k], visited);
      assert cs[..k + 1] == cs[..k] + [cs[k]];
      if cs[k] !in visited {
        added := added + [cs[k]];
      }
      k := k + 1;
    }
    assert cs[..k] == cs;
  }

  lemma {:induction false} UnvisitedAppend(cs: seq<GameStateNode>, c: GameStateNode, visited: set<GameStateNode>)
    ensures Unvisited(cs + [c], visited) == Unvisited(cs, visited) + (if c in visited then [] else [c])
    decreases |cs|
  {
    if cs == [] {
      assert cs + [c] == [c];
    } else {
      assert (cs + [c])[1..] == cs[1..] + [c];
      UnvisitedAppend(cs[1..], c, visited);
    }
  }

  /** The children of `n`, in order. */
  function Kids(n: GameStateNode): seq<GameStateNode>
    reads n
  {
    ChildNodes(n.children)
  }

  /** `n` copies of `x`. */
  function Repeat(x: nat, n: nat): (r: seq<nat>)
    ensures |r| == n && forall k :: 0 <= k < n ==> r[k] == x
  {
    if n == 0 then [] else [x] + Repeat(x, n - 1)
  }

  /** The visited set is the nodes recorded so far, each once, all in `nodes`, as are the queued ones. */
  ghost predicate Members(nodes: set<GameStateNode>, order: seq<GameStateNode>, visited: set<GameStateNode>, queue: seq<GameStateNode>)
  {
    visited == (set i | 0 <= i < |order| :: order[i]) && visited <= nodes &&
    (forall k :: 0 <= k < |queue| ==> queue[k] in nodes) && Simple(order)
  }

  /** The root is queued first, and recorded first. */
  predicate Start(root: GameStateNode, order: seq<GameStateNode>, via: seq<nat>, queue: seq<GameStateNode>, sources: seq<nat>)
  {
    |order| == |via| && |queue| == |sources| &&
    (order == [] ==> queue == [root] && sources == [0]) &&
    (order != [] ==> order[0] == root && via[0] == 0)
  }

  /**
   * Each queued node is a child of the recorded node `sources` names; the
   * sources grow along the queue and are no smaller than the last `via`.
   */
  ghost predicate Sources(order: seq<GameStateNode>, via: seq<nat>, queue: seq<GameStateNode>, sources: seq<nat>)
    reads set i | 0 <= i < |order| :: order[i]
    requires |order| == |via| && |queue| == |sources|
  {
    (order != [] ==> forall k :: 0 <= k < |queue| ==> sources[k] < |order| && queue[k] in Kids(order[sources[k]])) &&
    (forall k, l :: 0 <= k <= l < |sources| ==> sources[k] <= sources[l]) &&
    (order != [] ==> forall k :: 0 <= k < |sources| ==> via[|via| - 1] <= sources[k])
  }

  /** Each recorded node after the first is a child of the earlier node `via` names, and `via` never decreases. */
  ghost predicate Discovered(order: seq<GameStateNode>, via: seq<nat>)
    reads set i | 0 <= i < |order| :: order[i]
    requires |order| == |via|
  {
    (forall j :: 0 < j < |order| ==> via[j] < j && order[j] in Kids(order[via[j]])) &&
    (forall i, j :: 0 <= i <= j < |order| ==> via[i] <= via[j])
  }

  /** Each child of a recorded node is recorded or queued. */
  ghost predicate Frontier(order: seq<GameStateNode>, visited: set<GameStateNode>, queue: seq<GameStateNode>)
    reads set i | 0 <= i < |order| :: order[i]
  {
    forall i, c :: 0 <= i < |order| && c in Kids(order[i]) ==> c in visited || c in queue
  }

  /** The state of the loop of `flatten_tree`. */
  ghost predicate Bfs(root: GameStateNode, nodes: set<GameStateNode>, order: seq<GameStateNode>, via: seq<nat>,
                      visited: set<GameStateNode>, queue: seq<GameStateNode>, sources: seq<nat>)
    reads set i | 0 <= i < |order| :: order[i]
  {
    Members(nodes, order, visited, queue) && Start(root, order, via, queue, sources) &&
    Sources(order, via, queue, sources) && Discovered(order, via) && Frontier(order, visited, queue)
  }

  /** Dropping a queued node that was visited already keeps the loop state. */
  lemma SkipStep(root: GameStateNode, nodes: set<GameStateNode>, order: seq<GameStateNode>, via: seq<nat>,
                 visited: set<GameStateNode>, queue: seq<GameStateNode>, sources: seq<nat>)
    requires Bfs(root, nodes, order, via, visited, queue, sources) && queue != [] && queue[0] in visited
    ensures Bfs(root, nodes, order, via, visited, queue[1..], sources[1..])
  {
    assert order != [];
    forall i, c | 0 <= i < |order| && c in Kids(order[i]) ensures c in visited || c in queue[1..] {
      if c !in visited {
        assert c in queue && c != queue[0];
        var k :| 0 <= k < |queue| && queue[k] == c;
        assert queue[1..][k - 1] == c;
      }
    }
  }

  /** Recording a queued node that was not visited and queueing its unvisited children keeps the loop state. */
  lemma VisitStep(root: GameStateNode, nodes: set<GameStateNode>, order: seq<GameStateNode>, via: seq<nat>,
                  visited: set<GameStateNode>, queue: seq<GameStateNode>, sources: seq<nat>, added: seq<GameStateNode>)
    requires Closed(nodes)
    requires Bfs(root, nodes, order, via, visited, queue, sources) && queue != [] && queue[0] !in visited
    requires added == Unvisited(Kids(queue[0]), visited + {queue[0]})
    ensures Bfs(root, nodes, order + [queue[0]], via + [sources[0]], visited + {queue[0]},
                queue[1..] + added, sources[1..] + Repeat(|order|, |added|))
  {
    var node := queue[0];
    var order', via', visited' := order + [node], via + [sources[0]], visited + {node};
    var queue', sources' := queue[1..] + added, sources[1..] + Repeat(|order|, |added|);
    VisitMembers(nodes, order, visited, queue, added);
    VisitSources(root, order, via, queue, sources, added);
    VisitDiscovered(root, order, via, queue, sources);
    VisitFrontier(order, visited, queue, added);
  }

  lemma VisitMembers(nodes: set<GameStateNode>, order: seq<GameStateNode>, visited: set<GameStateNode>,
                     queue: seq<GameStateNode>, added: seq<GameStateNode>)
    requires Closed(nodes) && Members(nodes, order, visited, queue) && queue != [] && queue[0] !in visited
    requires added == Unvisited(Kids(queue[0]), visited + {queue[0]})
    ensures Members(nodes, order + [queue[0]], visited + {queue[0]}, queue[1..] + added)
  {
    var node := queue[0];
    forall k | 0 <= k < |added| ensures added[k] in nodes {
      var i :| 0 <= i < |node.children| && node.children[i].node == added[k];
    }
    var order' := order + [node];
    assert (set i | 0 <= i < |order'| :: order'[i]) == visited + {node} by {
      forall n | n in visited + {node} ensures n in set i | 0 <= i < |order'| :: order'[i] {
        if n != node {
          var i :| 0 <= i < |order| && order[i] == n;
          assert order'[i] == n;
        } else {
          assert order'[|order|] == n;
        }
      }
    }
    assert node !in order;
  }

  lemma VisitSources(root: GameStateNode, order: seq<GameStateNode>, via: seq<nat>, queue: seq<GameStateNode>,
                     sources: seq<nat>, added: seq<GameStateNode>)
    requires Start(root, order, via, queue, sources) && Sources(order, via, queue, sources) && queue != []
    requires forall k :: 0 <= k < |added| ==> added[k] in Kids(queue[0])
    ensures Start(root, order + [queue[0]], via + [sources[0]], queue[1..] + added, sources[1..] + Repeat(|order|, |added|))
    ensures Sources(order + [queue[0]], via + [sources[0]], queue[1..] + added, sources[1..] + Repeat(|order|, |added|))
  {
    var order', via' := order + [queue[0]], via + [sources[0]];
    var queue', sources' := queue[1..] + added, sources[1..] + Repeat(|order|, |added|);
    SourcesOfQueue(order, via, queue, sources, added);
    SourcesSorted(order, via, queue, sources, added);
  }

  lemma SourcesOfQueue(order: seq<GameStateNode>, via: seq<nat>, queue: seq<GameStateNode>,
                       sources: seq<nat>, added: seq<GameStateNode>)
    requires |order| == |via| && |queue| == |sources| && queue != []
    requires order == [] ==> |queue| == 1 && sources == [0]
    requires Sources(order, via, queue, sources)
    requires forall k :: 0 <= k < |added| ==> added[k] in Kids(queue[0])
    ensures var order', queue', sources' := order + [queue[0]], queue[1..] + added, sources[1..] + Repeat(|order|, |added|);
      forall k :: 0 <= k < |queue'| ==> sources'[k] < |order'| && queue'[k] in Kids(order'[sources'[k]])
  {
    var order' := order + [queue[0]];
    var queue', sources' := queue[1..] + added, sources[1..] + Repeat(|order|, |added|);
    forall k | 0 <= k < |queue'| ensures sources'[k] < |order'| && queue'[k] in Kids(order'[sources'[k]]) {
      if k < |queue| - 1 {
        assert queue'[k] == queue[k + 1] && sources'[k] == sources[k + 1];
        assert order'[sources[k + 1]] == order[sources[k + 1]];
      } else {
        assert queue'[k] == added[k - (|queue| - 1)] && sources'[k] == |order|;
      }
    }
  }

  lemma SourcesSorted(order: seq<GameStateNode>, via: seq<nat>, queue: seq<GameStateNode>,
                      sources: seq<nat>, added: seq<GameStateNode>)
    requires |order| == |via| && |queue| == |sources| && queue != []
    requires order == [] ==> |queue| == 1 && sources == [0]
    requires Sources(order, via, queue, sources)
    ensures var via', sources' := via + [sources[0]], sources[1..] + Repeat(|order|, |added|);
      (forall k, l :: 0 <= k <= l < |sources'| ==> sources'[k] <= sources'[l]) &&
      (forall k :: 0 <= k < |sources'| ==> via'[|via'| - 1] <= sources'[k])
  {
    var via', sources' := via + [sources[0]], sources[1..] + Repeat(|order|, |added|);
    forall k, l | 0 <= k <= l < |sources'| ensures sources'[k] <= sources'[l] {
      if l < |sources| - 1 {
        assert sources'[k] == sources[k + 1] && sources'[l] == sources[l + 1];
      } else if k < |sources| - 1 {
        assert sources'[k] == sources[k + 1];
      }
    }
    forall k | 0 <= k < |sources'| ensures via'[|via'| - 1] <= sources'[k] {
      if k < |sources| - 1 {
        assert sources'[k] == sources[k + 1];
      }
    }
  }

  lemma VisitDiscovered(root: GameStateNode, order: seq<GameStateNode>, via: seq<nat>, queue: seq<GameStateNode>, sources: seq<nat>)
    requires Start(root, order, via, queue, sources) && Sources(order, via, queue, sources)
    requires Discovered(order, via) && queue != []
    ensures Discovered(order + [queue[0]], via + [sources[0]])
  {
    var order', via' := order + [queue[0]], via + [sources[0]];
    forall j | 0 < j < |order'| ensures via'[j] < j && order'[j] in Kids(order'[via'[j]]) {
      if j < |order| {
        assert order'[via[j]] == order[via[j]];
      } else {
        assert order'[sources[0]] == order[sources[0]];
      }
    }
  }

  lemma VisitFrontier(order: seq<GameStateNode>, visited: set<GameStateNode>, queue: seq<GameStateNode>, added: seq<GameStateNode>)
    requires Frontier(order, visited, queue) && queue != []
    requires added == Unvisited(Kids(queue[0]), visited + {queue[0]})
    ensures Frontier(order + [queue[0]], visited + {queue[0]}, queue[1..] + added)
  {
    var order', visited', queue' := order + [queue[0]], visited + {queue[0]}, queue[1..] + added;
    forall i, c | 0 <= i < |order'| && c in Kids(order'[i]) ensures c in visited' || c in queue' {
      if c !in visited' {
        if i < |order| {
          assert order'[i] == order[i];
          var k :| 0 <= k < |queue| && queue[k] == c;
          assert queue'[k - 1] == c;
        } else {
          var k :| 0 <= k < |Kids(queue[0])| && Kids(queue[0])[k] == c;
          assert c in added;
        }
      }
    }
  }

  /**
   * `flatten_tree`: one record per node reachable from `root` through
   * children, each exactly once, root first. `order` is the nodes in record
   * order and `via[j]` the place of the node whose children queued node `j`:
   * an earlier node, and never an earlier one than for the record before,
   * which is breadth-first order. `nodes` is a ghost set holding every node
   * reachable from the root.
   */
  method FlattenTree(root: GameStateNode, ghost nodes: set<GameStateNode>)
    returns (nodeList: seq<NodeData>, ghost order: seq<GameStateNode>, ghost via: seq<nat>)
    requires root in nodes && Closed(nodes)
    ensures |nodeList| == |order| == |via| > 0 && order[0] == root
    ensures forall i :: 0 <= i < |order| ==> nodeList[i] == Record(order[i])
    ensures Simple(order)
    ensures forall i, c :: 0 <= i < |order| && c in Kids(order[i]) ==> c in order
    ensures forall j :: 0 < j < |order| ==> via[j] < j && order[j] in Kids(order[via[j]])
    ensures forall i, j :: 0 <= i <= j < |order| ==> via[i] <= via[j]
  {
    nodeList := [];
    var visited: set<GameStateNode> := {};
    var queue: seq<GameStateNode> := [root];
    ghost var sources: seq<nat> := [0];
    order, via := [], [];
    while queue != []
      invariant |nodeList| == |order| && forall i :: 0 <= i < |order| ==> nodeList[i] == Record(order[i])
      invariant Bfs(root, nodes, order, via, visited, queue, sources)
      decreases nodes - visited, |queue|
    {
      nodeList, order, via, visited, queue, sources := BfsStep(root, nodes, nodeList, order, via, visited, queue, sources);
    }
    BfsDone(root, nodes, order, via, visited, sources);
  }

  /**
   * `flatten_tree` as written: the record of the first node taken from the
   * queue (the root) reads `node.move`, an attribute no `GameStateNode`
   * has, so every call ends in an AttributeError before a record is kept.
   */
  function FlattenTreeAsWritten(root: GameStateNode): (r: Result<seq<NodeData>>)
    ensures r.Err? && r.error == AttributeError
  {
    Err(AttributeError)
  }

  /**
   * One turn of the loop of `flatten_tree`: the first queued node is dropped
   * if it was visited, and otherwise recorded with its unvisited children queued.
   */
  method BfsStep(root: GameStateNode, ghost nodes: set<GameStateNode>, nodeList: seq<NodeData>,
                 ghost order: seq<GameStateNode>, ghost via: seq<nat>, visited: set<GameStateNode>,
                 queue: seq<GameStateNode>, ghost sources: seq<nat>)
    returns (nodeList': seq<NodeData>, ghost order': seq<GameStateNode>, ghost via': seq<nat>,
             visited': set<GameStateNode>, queue': seq<GameStateNode>, ghost sources': seq<nat>)
    requires Closed(nodes) && queue != []
    requires |nodeList| == |order| && forall i :: 0 <= i < |order| ==> nodeList[i] == Record(order[i])
    requires Bfs(root, nodes, order, via, visited, queue, sources)
    ensures |nodeList'| == |order'| && forall i :: 0 <= i < |order'| ==> nodeList'[i] == Record(order'[i])
    ensures Bfs(root, nodes, order', via', visited', queue', sources')
    ensures visited == visited' ==> |queue'| < |queue|
    ensures visited != visited' ==> nodes - visited' < nodes - visited
  {
    var node := queue[0];
    if node in visited {
      SkipStep(root, nodes, order, via, visited, queue, sources);
      return nodeList, order, via, visited, queue[1..], sources[1..];
    }
    var added := EnqueueChildren(Kids(node), visited + {node});
    VisitStep(root, nodes, order, via, visited, queue, sources, added);
    RecordsAppend(nodeList, order, node);
    assert node in nodes - visited;
    nodeList', order', via', visited' := nodeList + [Record(node)], order + [queue[0]], via + [sources[0]], visited + {node};
    queue', sources' := queue[1..] + added, sources[1..] + Repeat(|order|, |added|);
  }

  /** Appending a node and its record keeps the records in step with the nodes. */
  lemma RecordsAppend(nodeList: seq<NodeData>, order: seq<GameStateNode>, node: GameStateNode)
    requires |nodeList| == |order| && forall i :: 0 <= i < |order| ==> nodeList[i] == Record(order[i])
    ensures var list', order' := nodeList + [Record(node)], order + [node];
      |list'| == |order'| && forall i :: 0 <= i < |order'| ==> list'[i] == Record(order'[i])
  {
  }

  /** With the queue empty, the loop state gives what `flatten_tree` promises. */
  lemma BfsDone(root: GameStateNode, nodes: set<GameStateNode>, order: seq<GameStateNode>, via: seq<nat>,
                visited: set<GameStateNode>, sources: seq<nat>)
    requires Bfs(root, nodes, order, via, visited, [], sources)
    ensures |order| == |via| > 0 && order[0] == root && Simple(order)
    ensures forall i, c :: 0 <= i < |order| && c in Kids(order[i]) ==> c in order
    ensures forall j :: 0 < j < |order| ==> via[j] < j && order[j] in Kids(order[via[j]])
    ensures forall i, j :: 0 <= i <= j < |order| ==> via[i] <= via[j]
  {
    forall i, c | 0 <= i < |order| && c in Kids(order[i]) ensures c in order {
      assert c in visited;
    }
  }

  // ------------------------------------------------------------ loading

  /** The hashes the first `n` records are stored under. */
  function HashesUpTo(list: seq<NodeData>, n: nat): (r: set<BoardHash>)
    requires n <= |list|
    ensures forall h :: h in r <==> exists i :: 0 <= i < n && list[i].boardHash == h
  {
    set i | 0 <= i < n :: list[i].boardHash
  }

  /**
   * The record each hash ends up with when `{d['board_hash']: ... for d in
   * list}` has gone through the first `n` records: a later record of the
   * same hash replaces an earlier one.
   */
  function RecordsUpTo(list: seq<NodeData>, n: nat): (r: map<BoardHash, NodeData>)
    requires n <= |list|
    ensures r.Keys == HashesUpTo(list, n)
    ensures forall h :: h in r ==> r[h].boardHash == h
  {
    if n == 0 then map[]
    else RecordsUpTo(list, n - 1)[list[n - 1].boardHash := list[n - 1]]
  }

  /** The hashes the records are stored under. */
  function RecordHashes(list: seq<NodeData>): set<BoardHash>
  {
    HashesUpTo(list, |list|)
  }

  /** The record each hash ends up with once every record is read. */
  function LastRecords(list: seq<NodeData>): (r: map<BoardHash, NodeData>)
    ensures r.Keys == RecordHashes(list)
    ensures forall h :: h in r ==> r[h].boardHash == h
  {
    RecordsUpTo(list, |list|)
  }

  /** The record kept for a hash is the last one of the first `n` stored under it. */
  lemma LastRecordWins(list: seq<NodeData>, n: nat, h: BoardHash)
    requires n <= |list| && h in HashesUpTo(list, n)
    ensures exists i :: 0 <= i < n && list[i] == RecordsUpTo(list, n)[h] &&
                        forall j :: i < j < n ==> list[j].boardHash != h
  {
    RecordMapIs(list, n);
    LastIndexKept(list, n, h);
  }

  /** The place of the last of the first `n` records stored under `h`, or -1. */
  function LastIndex(list: seq<NodeData>, n: nat, h: BoardHash): int
    requires n <= |list|
  {
    if n == 0 then -1
    else if list[n - 1].boardHash == h then n - 1
    else LastIndex(list, n - 1, h)
  }

  /** `RecordsUpTo` by the same updates, without its contract. */
  function RecordMap(list: seq<NodeData>, n: nat): map<BoardHash, NodeData>
    requires n <= |list|
  {
    if n == 0 then map[]
    else RecordMap(list, n - 1)[list[n - 1].boardHash := list[n - 1]]
  }

  lemma {:induction false} RecordMapIs(list: seq<NodeData>, n: nat)
    requires n <= |list|
    ensures RecordMap(list, n) == RecordsUpTo(list, n)
  {
    if n > 0 { RecordMapIs(list, n - 1); }
  }

  /** The record kept for `h` is the one at `LastIndex`, and no later record has that hash. */
  lemma {:induction false} LastIndexKept(list: seq<NodeData>, n: nat, h: BoardHash)
    requires n <= |list| && h in RecordMap(list, n)
    ensures 0 <= LastIndex(list, n, h) < n
    ensures list[LastIndex(list, n, h)] == RecordMap(list, n)[h]
    ensures forall j :: LastIndex(list, n, h) < j < n ==> list[j].boardHash != h
  {
    if list[n - 1].boardHash != h {
      LastIndexKept(list, n - 1, h);
    }
  }

  /**
   * Each node is stored under its own `board_hash`, so different hashes map
   * to different nodes.
   */
  ghost predicate Injective(nodeMap: map<BoardHash, GameStateNode>)
  {
    forall h :: h in nodeMap ==> nodeMap[h].boardHash == h
  }

  /** `Injective` in the plain pairwise form. */
  lemma InjectiveDistinct(nodeMap: map<BoardHash, GameStateNode>)
    requires Injective(nodeMap)
    ensures forall h1, h2 :: h1 in nodeMap && h2 in nodeMap && h1 != h2 ==> nodeMap[h1] != nodeMap[h2]
  {
    forall h1, h2 | h1 in nodeMap && h2 in nodeMap && h1 != h2 ensures nodeMap[h1] != nodeMap[h2] {
      assert nodeMap[h1].boardHash == h1 && nodeMap[h2].boardHash == h2;
    }
  }

  /** Every hash `d` refers to is a key of `nodeMap`. */
  predicate Resolves(d: NodeData, keys: set<BoardHash>)
  {
    (forall k :: 0 <= k < |d.parents| ==> d.parents[k] in keys) &&
    (forall k :: 0 <= k < |d.children| ==> d.children[k] in keys)
  }

  /** Every hash any record refers to is the hash of some record. */
  predicate Resolvable(list: seq<NodeData>)
  {
    forall i :: 0 <= i < |list| ==> Resolves(list[i], RecordHashes(list))
  }

  /**
   * `{node_map[phash] for phash in hashes}`: the nodes of the hashes, each
   * once, in the order of their first hash.
   */
  function LinkParents(hashes: seq<BoardHash>, nodeMap: map<BoardHash, GameStateNode>): (r: seq<GameStateNode>)
    requires forall k :: 0 <= k < |hashes| ==> hashes[k] in nodeMap
    ensures Simple(r)
    ensures forall i :: 0 <= i < |r| ==> exists k :: 0 <= k < |hashes| && nodeMap[hashes[k]] == r[i]
    ensures forall k :: 0 <= k < |hashes| ==> nodeMap[hashes[k]] in r
  {
    if hashes == [] then []
    else
      var front := LinkParents(hashes[..|hashes| - 1], nodeMap);
      var p := nodeMap[hashes[|hashes| - 1]];
      assert forall k :: 0 <= k < |hashes| - 1 ==> hashes[..|hashes| - 1][k] == hashes[k];
      if p in front then front else front + [p]
  }

  /** `{chash: node_map[chash] for chash in hashes}`. */
  function LinkChildren(hashes: seq<BoardHash>, nodeMap: map<BoardHash, GameStateNode>): (r: seq<Child>)
    requires forall k :: 0 <= k < |hashes| ==> hashes[k] in nodeMap
    ensures forall h :: Lookup(r, h) == if h in hashes then Some(nodeMap[h]) else None
  {
    if hashes == [] then []
    else
      var last := hashes[|hashes| - 1];
      assert forall h :: h in hashes <==> h in hashes[..|hashes| - 1] || h == last;
      Put(LinkChildren(hashes[..|hashes| - 1], nodeMap), last, nodeMap[last])
  }

  /** The fixed fields of `n` come from the record `d`. */
  predicate FromRecord(n: GameStateNode, d: NodeData)
  {
    n.fen == d.fen && n.result == d.result && n.boardHash == d.boardHash && n.playerTurn == d.playerTurn &&
    n.isGameTerminated == d.isGameTerminated && n.expandableMoves == d.expandableMoves
  }

  /** A node made from `d`: its fields come from the record, with no visits and nothing explored. */
  ghost predicate Made(n: GameStateNode, d: NodeData)
    reads n
  {
    FromRecord(n, d) && n.numVisits == 0 && n.exploredMoves == {}
  }

  /** The parents and children of one node. */
  datatype Links = Links(parents: seq<GameStateNode>, children: seq<Child>)

  /** The links `d` asks for, through `nodeMap`. */
  ghost predicate LinksFor(l: Links, d: NodeData, nodeMap: map<BoardHash, GameStateNode>)
  {
    Resolves(d, nodeMap.Keys) &&
    l.parents == LinkParents(d.parents, nodeMap) && l.children == LinkChildren(d.children, nodeMap)
  }

  /** A node whose parents and children are the nodes `nodeMap` gives for the hashes of `d`. */
  ghost predicate Linked(n: GameStateNode, d: NodeData, nodeMap: map<BoardHash, GameStateNode>)
    reads n
  {
    LinksFor(Links(n.parents, n.children), d, nodeMap)
  }

  /** A node made from `d` and relinked through `nodeMap`. */
  ghost predicate Loaded(n: GameStateNode, d: NodeData, nodeMap: map<BoardHash, GameStateNode>)
    reads n
  {
    Made(n, d) && Linked(n, d, nodeMap)
  }

  /** Every node of `nodeMap` is loaded from the last record of its hash. */
  ghost predicate AllLoaded(list: seq<NodeData>, nodeMap: map<BoardHash, GameStateNode>)
    reads nodeMap.Values
  {
    forall h :: h in nodeMap && h in LastRecords(list) ==> Loaded(nodeMap[h], LastRecords(list)[h], nodeMap)
  }

  /** A node made from `d`, not linked yet. */
  ghost predicate Unlinked(n: GameStateNode, d: NodeData)
    reads n
  {
    Made(n, d) && n.parents == [] && n.children == []
  }

  /** The first step of `load_checkpoint`: a fresh node per hash, from the last record of that hash. */
  method BuildNodeMap(list: seq<NodeData>) returns (nodeMap: map<BoardHash, GameStateNode>)
    ensures nodeMap.Keys == RecordHashes(list) && Injective(nodeMap)
    ensures forall h :: h in nodeMap ==> fresh(nodeMap[h]) && Unlinked(nodeMap[h], LastRecords(list)[h])
  {
    nodeMap := map[];
    var i := 0;
    while i < |list|
      invariant 0 <= i <= |list|
      invariant nodeMap.Keys == HashesUpTo(list, i) && Injective(nodeMap)
      invariant forall h :: h in nodeMap ==> fresh(nodeMap[h]) && Unlinked(nodeMap[h], RecordsUpTo(list, i)[h])
    {
      var d := list[i];
      var node := new GameStateNode(d.fen, d.result, d.boardHash, d.playerTurn, d.isGameTerminated, d.expandableMoves);
      nodeMap := nodeMap[d.boardHash := node];
      i := i + 1;
    }
  }

  /** The nodes of `nodeMap` hold the links `links` gives for their hashes, with no visits and nothing explored. */
  ghost predicate Holds(nodeMap: map<BoardHash, GameStateNode>, links: map<BoardHash, Links>)
    reads nodeMap.Values
  {
    links.Keys == nodeMap.Keys &&
    forall h :: h in nodeMap ==>
      nodeMap[h].parents == links[h].parents && nodeMap[h].children == links[h].children &&
      nodeMap[h].numVisits == 0 && nodeMap[h].exploredMoves == {}
  }

  /**
   * The links the records `records` give: the node of each hash they hold is
   * linked by its record, and the other nodes have no links.
   */
  ghost predicate LinkedBy(records: map<BoardHash, NodeData>, nodeMap: map<BoardHash, GameStateNode>, links: map<BoardHash, Links>)
  {
    (forall h :: h in links && h in records ==> LinksFor(links[h], records[h], nodeMap)) &&
    (forall h :: h in links && h !in records ==> links[h] == Links([], []))
  }

  /** The links after the first `i` records were relinked, each hash by the last of them. */
  ghost predicate Relinked(list: seq<NodeData>, nodeMap: map<BoardHash, GameStateNode>, links: map<BoardHash, Links>, i: nat)
    requires i <= |list|
  {
    nodeMap.Keys == RecordHashes(list) && links.Keys == nodeMap.Keys &&
    LinkedBy(RecordsUpTo(list, i), nodeMap, links)
  }

  /** Relinking the node of `list[i]` by that record moves `Relinked` one record on. */
  lemma RelinkStep(list: seq<NodeData>, nodeMap: map<BoardHash, GameStateNode>, links: map<BoardHash, Links>, i: nat, l: Links)
    requires i < |list| && Relinked(list, nodeMap, links, i) && LinksFor(l, list[i], nodeMap)
    ensures Relinked(list, nodeMap, links[list[i].boardHash := l], i + 1)
  {
    var h0 := list[i].boardHash;
    assert h0 in RecordHashes(list);
    assert links[h0 := l].Keys == links.Keys;
    assert RecordsUpTo(list, i + 1) == RecordsUpTo(list, i)[h0 := list[i]];
    LinkedByUpdate(RecordsUpTo(list, i), nodeMap, links, h0, list[i], l);
  }

  /** Storing record `d` under `h0` and linking that node by `d` keeps the links those of the records. */
  lemma LinkedByUpdate(records: map<BoardHash, NodeData>, nodeMap: map<BoardHash, GameStateNode>, links: map<BoardHash, Links>,
                       h0: BoardHash, d: NodeData, l: Links)
    requires LinkedBy(records, nodeMap, links) && LinksFor(l, d, nodeMap)
    ensures LinkedBy(records[h0 := d], nodeMap, links[h0 := l])
  {
    var links', after := links[h0 := l], records[h0 := d];
    forall h | h in links' && h in after ensures LinksFor(links'[h], after[h], nodeMap) {
      if h != h0 {
        assert links'[h] == links[h] && after[h] == records[h];
      }
    }
    forall h | h in links' && h !in after ensures links'[h] == Links([], []) {
      assert links'[h] == links[h];
    }
  }

  /** `node = node_map[h]; node.parents = ...; node.children = ...`: the other nodes keep their links. */
  method SetLinks(nodeMap: map<BoardHash, GameStateNode>, h: BoardHash, l: Links, ghost links: map<BoardHash, Links>)
    requires h in nodeMap && Injective(nodeMap) && Holds(nodeMap, links)
    modifies nodeMap[h]
    ensures Holds(nodeMap, links[h := l])
  {
    var node := nodeMap[h];
    node.parents, node.children := l.parents, l.children;
    forall k | k in nodeMap && k != h
      ensures nodeMap[k].parents == links[k].parents && nodeMap[k].children == links[k].children
      ensures nodeMap[k].numVisits == 0 && nodeMap[k].exploredMoves == {}
    {
      assert nodeMap[k].boardHash == k;
    }
  }

  /** Once every record is relinked, each hash has the links of its last record. */
  lemma RelinkDone(list: seq<NodeData>, nodeMap: map<BoardHash, GameStateNode>, links: map<BoardHash, Links>)
    requires Relinked(list, nodeMap, links, |list|)
    ensures forall h :: h in links ==> LinksFor(links[h], LastRecords(list)[h], nodeMap)
  {
  }

  /**
   * `node_map[d['board_hash']]` gets the parents and children the record
   * `list[i]` names; `n` counts the records relinked so far.
   */
  method RelinkNext(list: seq<NodeData>, nodeMap: map<BoardHash, GameStateNode>, i: nat, ghost links: map<BoardHash, Links>)
    returns (n: nat, ghost links': map<BoardHash, Links>)
    requires i < |list| && Injective(nodeMap) && Resolves(list[i], nodeMap.Keys)
    requires Relinked(list, nodeMap, links, i) && Holds(nodeMap, links)
    modifies nodeMap.Values
    ensures n == i + 1
    ensures Relinked(list, nodeMap, links', n) && Holds(nodeMap, links')
  {
    n := i + 1;
    var d := list[i];
    var l := Links(LinkParents(d.parents, nodeMap), LinkChildren(d.children, nodeMap));
    RelinkStep(list, nodeMap, links, i, l);
    assert d.boardHash in nodeMap;
    SetLinks(nodeMap, d.boardHash, l, links);
    links' := links[d.boardHash := l];
  }

  /** No links for any of `keys`. */
  ghost function NoLinks(keys: set<BoardHash>): (r: map<BoardHash, Links>)
    ensures r.Keys == keys && forall h :: h in r ==> r[h] == Links([], [])
  {
    map h | h in keys :: Links([], [])
  }

  /**
   * The second step of `load_checkpoint`: each record in turn relinks the
   * node of its hash; a hash with no record stops it with a `KeyError`.
   */
  method Relink(list: seq<NodeData>, nodeMap: map<BoardHash, GameStateNode>) returns (ok: bool)
    requires nodeMap.Keys == RecordHashes(list) && Injective(nodeMap)
    requires forall h :: h in nodeMap ==> Unlinked(nodeMap[h], LastRecords(list)[h])
    modifies nodeMap.Values
    ensures ok <==> Resolvable(list)
    ensures ok ==> AllLoaded(list, nodeMap)
  {
    ghost var links := NoLinks(nodeMap.Keys);
    assert HashesUpTo(list, 0) == {};
    assert Relinked(list, nodeMap, links, 0);
    ok, links := RelinkRecords(list, nodeMap, links);
    if ok {
      RelinkDone(list, nodeMap, links);
      forall h | h in nodeMap && h in LastRecords(list) ensures Loaded(nodeMap[h], LastRecords(list)[h], nodeMap) {
        assert FromRecord(nodeMap[h], LastRecords(list)[h]);
        assert Links(nodeMap[h].parents, nodeMap[h].children) == links[h];
      }
    }
  }

  /** The first `n` records name only hashes in `keys`. */
  predicate ResolvedUpTo(list: seq<NodeData>, keys: set<BoardHash>, n: nat)
    requires n <= |list|
  {
    n == 0 || (ResolvedUpTo(list, keys, n - 1) && Resolves(list[n - 1], keys))
  }

  /** `ResolvedUpTo` record by record. */
  lemma {:induction false} ResolvedUpToEach(list: seq<NodeData>, keys: set<BoardHash>, n: nat)
    requires n <= |list|
    ensures ResolvedUpTo(list, keys, n) <==> forall j :: 0 <= j < n ==> Resolves(list[j], keys)
  {
    if n > 0 {
      ResolvedUpToEach(list, keys, n - 1);
    }
  }

  /** The loop of the second step, over the records in order. */
  method RelinkRecords(list: seq<NodeData>, nodeMap: map<BoardHash, GameStateNode>, ghost links: map<BoardHash, Links>)
    returns (ok: bool, ghost links': map<BoardHash, Links>)
    requires Injective(nodeMap)
    requires Relinked(list, nodeMap, links, 0) && Holds(nodeMap, links)
    modifies nodeMap.Values
    ensures ok <==> forall j :: 0 <= j < |list| ==> Resolves(list[j], nodeMap.Keys)
    ensures ok ==> Relinked(list, nodeMap, links', |list|) && Holds(nodeMap, links')
  {
    links' := links;
    var i := 0;
    while i < |list|
      invariant 0 <= i <= |list|
      invariant ResolvedUpTo(list, nodeMap.Keys, i)
      invariant Relinked(list, nodeMap, links', i) && Holds(nodeMap, links')
    {
      if !Resolves(list[i], nodeMap.Keys) {
        return false, links';
      }
      i, links' := RelinkNext(list, nodeMap, i, links');
    }
    ResolvedUpToEach(list, nodeMap.Keys, |list|);
    return true, links';
  }

  /**
   * Both steps of `load_checkpoint` on fresh nodes, then `node_list[0]`:
   * a dangling hash raises `KeyError`, an empty list `IndexError`.
   */
  method LoadNodes(list: seq<NodeData>) returns (r: Result<GameStateNode>, nodeMap: map<BoardHash, GameStateNode>)
    ensures !Resolvable(list) ==> r == Err(KeyError)
    ensures list == [] ==> r == Err(IndexError)
    ensures Resolvable(list) && list != [] ==>
      nodeMap.Keys == RecordHashes(list) && Injective(nodeMap) &&
      r == Ok(nodeMap[list[0].boardHash]) && AllLoaded(list, nodeMap)
  {
    nodeMap := BuildNodeMap(list);
    var ok := Relink(list, nodeMap);
    if !ok {
      return Err(KeyError), nodeMap;
    }
    if list == [] {
      return Err(IndexError), nodeMap;
    }
    assert list[0].boardHash in RecordHashes(list);
    r := Ok(nodeMap[list[0].boardHash]);
  }

  class Checkpoint {
    var root: GameStateNode?
    const filename: string
    var isInitialized: bool

    /** A loaded checkpoint has a root. */
    predicate Valid()
      reads this
    {
      isInitialized ==> root != null
    }

    constructor ()
      ensures root == null && !isInitialized && filename == "checkpoint.pkl" && Valid()
    {
      root := null;
      filename := "checkpoint.pkl";
      isInitialized := false;
    }

    /**
     * `load_checkpoint`: a second load returns the first root. Otherwise a
     * node is made per hash, every record relinks its node by hash, and the
     * node of the first record's hash becomes the root; a dangling hash
     * raises `KeyError`, an empty list `IndexError`.
     */
    method LoadCheckpoint(stored: seq<NodeData>) returns (r: Result<GameStateNode>, ghost nodeMap: map<BoardHash, GameStateNode>)
      requires Valid()
      modifies this
      ensures Valid()
      ensures old(isInitialized) ==> r.Ok? && r.value == old(root) && root == old(root) && isInitialized
      ensures !old(isInitialized) && !Resolvable(stored) ==> r == Err(KeyError) && root == old(root) && !isInitialized
      ensures !old(isInitialized) && stored == [] ==> r == Err(IndexError) && root == old(root) && !isInitialized
      ensures !old(isInitialized) && Resolvable(stored) && stored != [] ==>
        nodeMap.Keys == RecordHashes(stored) &&
        r == Ok(nodeMap[stored[0].boardHash]) && root == r.value && isInitialized &&
        AllLoaded(stored, nodeMap)
      ensures !old(isInitialized) && Resolvable(stored) && stored != [] ==> Injective(nodeMap)
    {
      nodeMap := map[];
      if isInitialized {
        return Ok(root as GameStateNode), nodeMap;
      }
      r, nodeMap := LoadNodes(stored);
      if r.Ok? {
        label loaded:
        root, isInitialized := r.value, true;
        assert unchanged@loaded(nodeMap.Values);
        assert AllLoaded(stored, nodeMap);
      }
    }

    /**
     * `load_checkpoint` as written: a second load returns the first root;
     * otherwise `GameStateNode(**node_data)` is handed the `move`, `parents`
     * and `children` entries, keywords its constructor does not take, so
     * the first record raises a TypeError, and an empty list reaches
     * `node_list[0]`, an IndexError. Nothing is stored.
     */
    method LoadCheckpointAsWritten(stored: seq<NodeData>) returns (r: Result<GameStateNode>)
      requires Valid()
      ensures isInitialized ==> r.Ok? && r.value == root
      ensures !isInitialized && stored == [] ==> r == Err(IndexError)
      ensures !isInitialized && stored != [] ==> r == Err(TypeError)
    {
      if isInitialized {
        return Ok(root as GameStateNode);
      }
      if stored != [] {
        return Err(TypeError);                   // the comprehension fails on the first record
      }
      r := Err(IndexError);
    }
  }
}
