/**
 * The search for an open message window in a scene graph of the game's page. Nodes may be
 * shared and links may form cycles; what is not a plain object is skipped.
 */
module SceneWalk {
  import opened Prelude

  datatype Value = Object(id: nat) | NotPlain | Nullish

  /** `openness` is absent when it is not a number; `children` is absent when it is not an array. */
  datatype Node = Node(isMessageWindow: bool, visible: bool, renderable: bool, openness: Option<real>, parent: Value,
                       children: Option<seq<Value>>)

  type Graph = map<nat, Node>

  predicate Known(g: Graph, v: Value) {
    v.Object? ==> v.id in g
  }

  /** Every link leads to a node of the graph. */
  predicate Closed(g: Graph) {
    forall n :: n in g ==> Known(g, g[n].parent) && (g[n].children.Some? ==> AllKnown(g, g[n].children.value))
  }

  predicate AllKnown(g: Graph, nodes: seq<Value>) {
    forall i :: 0 <= i < |nodes| ==> Known(g, nodes[i])
  }

  // ----- the parent chain -----

  predicate Shown(g: Graph, n: nat) {
    n in g && g[n].visible && g[n].renderable
  }

  /** Following parents from `v` through exactly the shown nodes `chain` arrives at `w`. */
  predicate Leads(g: Graph, v: Value, chain: seq<nat>, w: Value)
    decreases |chain|
  {
    if chain == [] then v == w
    else v == Object(chain[0]) && Shown(g, chain[0]) && Leads(g, g[chain[0]].parent, chain[1..], w)
  }

  /** The parent chain of `n` ends, so it has no cycle, and is wholly shown. */
  ghost predicate WhollyShownAbove(g: Graph, n: nat)
    requires n in g
  {
    exists chain :: Leads(g, g[n].parent, chain, Nullish)
  }

  lemma {:induction false} LeadsOn(g: Graph, v: Value, chain: seq<nat>, n: nat)
    requires Leads(g, v, chain, Object(n)) && Shown(g, n)
    ensures Leads(g, v, chain + [n], g[n].parent)
    decreases |chain|
  {
    if chain == [] {
      assert [n][1..] == [];
    } else {
      assert (chain + [n])[1..] == chain[1..] + [n];
      LeadsOn(g, g[chain[0]].parent, chain[1..], n);
    }
  }

  /** A node met on the way leads to the end of the way. */
  lemma {:induction false} LeadsFrom(g: Graph, v: Value, chain: seq<nat>, w: Value, j: nat)
    requires Leads(g, v, chain, w) && j < |chain|
    ensures Leads(g, Object(chain[j]), chain[j..], w)
    decreases |chain|
  {
    if j == 0 {
      assert chain[0..] == chain;
    } else {
      LeadsFrom(g, g[chain[0]].parent, chain[1..], w, j - 1);
      assert chain[1..][j - 1..] == chain[j..];
    }
  }

  /** Two ways from the same value: the one that ends at the root extends the other. */
  lemma {:induction false} LeadsRest(g: Graph, v: Value, chain: seq<nat>, prefix: seq<nat>, w: Value)
    requires Leads(g, v, chain, Nullish) && Leads(g, v, prefix, w)
    ensures |prefix| <= |chain| && Leads(g, w, chain[|prefix|..], Nullish)
    decreases |prefix|
  {
    if prefix == [] {
      assert chain[0..] == chain;
    } else {
      LeadsRest(g, g[prefix[0]].parent, chain[1..], prefix[1..], w);
      assert chain[1..][|prefix| - 1..] == chain[|prefix|..];
    }
  }

  /** A value on a cycle never leads to the root. */
  lemma {:induction false} CycleNeverEnds(g: Graph, v: Value, loop: seq<nat>, chain: seq<nat>)
    requires loop != [] && Leads(g, v, loop, v)
    ensures !Leads(g, v, chain, Nullish)
    decreases |chain|
  {
    if Leads(g, v, chain, Nullish) {
      LeadsRest(g, v, chain, loop, v);
      CycleNeverEnds(g, v, loop, chain[|loop|..]);
    }
  }

  /** A parent chain that ends at the root passes no node twice. */
  lemma ChainIsAcyclic(g: Graph, v: Value, chain: seq<nat>, i: nat, j: nat)
    requires Leads(g, v, chain, Nullish) && i < j < |chain|
    ensures chain[i] != chain[j]
  {
    if chain[i] == chain[j] {
      var rest := chain[i..];
      LeadsFrom(g, v, chain, Nullish, i);
      LeadsFrom(g, Object(chain[i]), rest, Nullish, j - i);
      LeadsUpTo(g, Object(chain[i]), rest, Nullish, j - i);
      CycleNeverEnds(g, Object(chain[i]), rest[..j - i], rest);
    }
  }

  lemma {:induction false} LeadsUpTo(g: Graph, v: Value, chain: seq<nat>, w: Value, j: nat)
    requires Leads(g, v, chain, w) && j < |chain|
    ensures Leads(g, v, chain[..j], Object(chain[j]))
    decreases |chain|
  {
    if j > 0 {
      LeadsUpTo(g, g[chain[0]].parent, chain[1..], w, j - 1);
      assert chain[..j][1..] == chain[1..][..j - 1];
    }
  }

  /** If the walk from `v` got to `w` and `w` never ends at the root, neither does `v`. */
  lemma StuckThere(g: Graph, v: Value, walked: seq<nat>, w: Value)
    requires Leads(g, v, walked, w) && forall chain :: !Leads(g, w, chain, Nullish)
    ensures forall chain :: !Leads(g, v, chain, Nullish)
  {
    forall chain ensures !Leads(g, v, chain, Nullish) {
      if Leads(g, v, chain, Nullish) { LeadsRest(g, v, chain, walked, w); }
    }
  }

  lemma BlockedHere(g: Graph, w: Value)
    requires !w.Nullish? && (w.Object? ==> !Shown(g, w.id))
    ensures forall chain :: !Leads(g, w, chain, Nullish)
  {}

  predicate Distinct(ids: seq<nat>) {
    forall i, j :: 0 <= i < j < |ids| ==> ids[i] != ids[j]
  }

  function IdSet(ids: seq<nat>): set<nat> {
    set id | id in ids
  }

  lemma VisitedBound(g: Graph, ids: seq<nat>, n: nat)
    requires Distinct(ids) && n !in ids && n in g && forall id :: id in ids ==> id in g
    ensures IdSet(ids + [n]) == IdSet(ids) + {n} && g.Keys - IdSet(ids + [n]) < g.Keys - IdSet(ids)
  {
    assert n in g.Keys - IdSet(ids);
  }

  /** `ancestorsAreVisible`. */
  method AncestorsAreVisible(g: Graph, n: nat) returns (shown: bool)
    requires Closed(g) && n in g
    ensures shown <==> WhollyShownAbove(g, n)
  {
    var visited: seq<nat> := [];
    var ancestor := g[n].parent;
    while !ancestor.Nullish?
      invariant Leads(g, g[n].parent, visited, ancestor) && Known(g, ancestor)
      invariant Distinct(visited) && forall id :: id in visited ==> id in g
      decreases g.Keys - IdSet(visited)
    {
      if ancestor.NotPlain? || ancestor.id in visited {
        if ancestor.Object? {
          var j :| 0 <= j < |visited| && visited[j] == ancestor.id;
          LeadsFrom(g, g[n].parent, visited, ancestor, j);
          forall chain ensures !Leads(g, ancestor, chain, Nullish) {
            CycleNeverEnds(g, ancestor, visited[j..], chain);
          }
        } else {
          BlockedHere(g, ancestor);
        }
        StuckThere(g, g[n].parent, visited, ancestor);
        return false;
      }
      if !g[ancestor.id].visible || !g[ancestor.id].renderable {
        BlockedHere(g, ancestor);
        StuckThere(g, g[n].parent, visited, ancestor);
        return false;
      }
      LeadsOn(g, g[n].parent, visited, ancestor.id);
      VisitedBound(g, visited, ancestor.id);
      visited := visited + [ancestor.id];
      ancestor := g[ancestor.id].parent;
    }
    return true;
  }

  // ----- the walk -----

  /** An open message window that is shown, as is everything above it. */
  ghost predicate IsOpenMessage(g: Graph, n: nat) {
    && Shown(g, n) && g[n].isMessageWindow && g[n].openness.Some? && g[n].openness.value > 0.0
    && WhollyShownAbove(g, n)
  }

  predicate IsChild(g: Graph, n: nat, child: nat) {
    n in g && g[n].children.Some? && Object(child) in g[n].children.value
  }

  /** A way down from `root` through the children of plain objects. */
  predicate IsPath(g: Graph, root: nat, path: seq<nat>) {
    && path != [] && path[0] == root
    && forall i :: 0 <= i < |path| - 1 ==> IsChild(g, path[i], path[i + 1])
  }

  ghost predicate Reachable(g: Graph, root: nat, n: nat) {
    exists path :: IsPath(g, root, path) && path[|path| - 1] == n
  }

  lemma RootReachable(g: Graph, root: nat)
    ensures Reachable(g, root, root)
  {
    assert IsPath(g, root, [root]);
  }

  lemma ChildReachable(g: Graph, root: nat, n: nat, child: nat)
    requires Reachable(g, root, n) && IsChild(g, n, child)
    ensures Reachable(g, root, child)
  {
    var path :| IsPath(g, root, path) && path[|path| - 1] == n;
    assert IsPath(g, root, path + [child]);
  }

  /** Visited nodes whose children are all visited or pending, none of them a message window. */
  ghost predicate Explored(g: Graph, root: nat, visited: seq<nat>, pending: seq<Value>) {
    && VisitedClosed(g, root, visited) && ChildrenListed(g, visited, pending)
    && (root in visited || Object(root) in pending) && AllReachable(g, root, pending)
  }

  ghost predicate VisitedClosed(g: Graph, root: nat, visited: seq<nat>) {
    forall n :: n in visited ==> n in g && Reachable(g, root, n) && !IsOpenMessage(g, n)
  }

  ghost predicate ChildrenListed(g: Graph, visited: seq<nat>, pending: seq<Value>) {
    forall n, child :: n in visited && IsChild(g, n, child) ==> child in visited || Object(child) in pending
  }

  ghost predicate AllReachable(g: Graph, root: nat, pending: seq<Value>) {
    forall n :: Object(n) in pending ==> n in g && Reachable(g, root, n)
  }

  lemma {:induction false} PathVisited(g: Graph, root: nat, visited: seq<nat>, path: seq<nat>, i: nat)
    requires Explored(g, root, visited, []) && IsPath(g, root, path) && i < |path|
    ensures path[i] in visited
  {
    if i > 0 {
      PathVisited(g, root, visited, path, i - 1);
      assert IsChild(g, path[i - 1], path[i]);
    }
  }

  lemma NothingLeft(g: Graph, root: nat, visited: seq<nat>)
    requires Explored(g, root, visited, [])
    ensures forall n :: Reachable(g, root, n) ==> !IsOpenMessage(g, n)
  {
    forall n | Reachable(g, root, n) ensures !IsOpenMessage(g, n) {
      var path :| IsPath(g, root, path) && path[|path| - 1] == n;
      PathVisited(g, root, visited, path, |path| - 1);
    }
  }

  lemma SkipKeeps(g: Graph, root: nat, visited: seq<nat>, pending: seq<Value>)
    requires Explored(g, root, visited, pending) && pending != []
    requires var v := pending[|pending| - 1]; v.Object? ==> v.id in visited
    ensures Explored(g, root, visited, pending[..|pending| - 1])
  {
    var v, rest := pending[|pending| - 1], pending[..|pending| - 1];
    assert pending == rest + [v];
    forall w | w in pending && w != v ensures w in rest {}
    forall w | w in rest ensures w in pending {}
    hide Reachable, IsOpenMessage, IsChild, VisitedClosed;
  }

  lemma VisitKeeps(g: Graph, root: nat, visited: seq<nat>, pending: seq<Value>, n: nat, children: seq<Value>)
    requires Closed(g) && Explored(g, root, visited, pending) && pending != [] && pending[|pending| - 1] == Object(n)
    requires n in g && !IsOpenMessage(g, n) && children == if g[n].children.Some? then g[n].children.value else []
    ensures Explored(g, root, visited + [n], pending[..|pending| - 1] + children)
  {
    var rest := pending[..|pending| - 1];
    assert pending == rest + [Object(n)];
    assert Object(n) in pending;
    hide Reachable, IsOpenMessage;
    VisitReachable(g, root, rest, n, children);
    hide Closed;
    VisitListed(g, visited, rest, n, children);
    hide ChildrenListed, AllReachable;
  }

  lemma VisitReachable(g: Graph, root: nat, rest: seq<Value>, n: nat, children: seq<Value>)
    requires Closed(g) && AllReachable(g, root, rest + [Object(n)])
    requires n in g && children == if g[n].children.Some? then g[n].children.value else []
    ensures AllReachable(g, root, rest + children)
  {
    assert Object(n) in rest + [Object(n)];
    hide Reachable;
    forall child | Object(child) in children ensures child in g && Reachable(g, root, child) {
      assert IsChild(g, n, child);
      ChildReachable(g, root, n, child);
      var i :| 0 <= i < |children| && children[i] == Object(child);
      assert Known(g, g[n].children.value[i]);
    }
    hide Closed;
    forall v | v in rest ensures v in rest + [Object(n)] {}
  }

  lemma VisitListed(g: Graph, visited: seq<nat>, rest: seq<Value>, n: nat, children: seq<Value>)
    requires ChildrenListed(g, visited, rest + [Object(n)])
    requires n in g && children == if g[n].children.Some? then g[n].children.value else []
    ensures ChildrenListed(g, visited + [n], rest + children)
  {
    forall k, child | k in visited + [n] && IsChild(g, k, child)
      ensures child in visited + [n] || Object(child) in rest + children
    {
      if k in visited {
        assert child in visited || Object(child) in rest + [Object(n)];
      } else {
        assert Object(child) in children;
      }
    }
  }

  datatype UiState = Dialogue | Unknown

  method IsVisibleMessageWindow(g: Graph, n: nat) returns (open: bool)
    requires Closed(g) && n in g
    ensures open <==> IsOpenMessage(g, n)
  {
    if !(g[n].isMessageWindow && g[n].visible && g[n].renderable && g[n].openness.Some?
        && g[n].openness.value > 0.0) { return false; }
    open := AncestorsAreVisible(g, n);
  }

  /** `collectVisibleSurface`. */
  method CollectVisibleSurface(g: Graph, sceneRoot: Value, hasMessageType: bool) returns (state: UiState)
    requires Closed(g) && Known(g, sceneRoot)
    ensures state == Dialogue <==>
      hasMessageType && sceneRoot.Object? && exists n :: Reachable(g, sceneRoot.id, n) && IsOpenMessage(g, n)
  {
    if !hasMessageType || !sceneRoot.Object? { return Unknown; }
    var root := sceneRoot.id;
    var pending := [sceneRoot];
    var visited: seq<nat> := [];
    RootReachable(g, root);
    hide Reachable, IsOpenMessage, IsChild, Closed, IdSet;
    while pending != []
      invariant Explored(g, root, visited, pending) && Distinct(visited)
      decreases g.Keys - IdSet(visited), |pending|
    {
      var v := pending[|pending| - 1];
      if !v.Object? || v.id in visited {
        SkipKeeps(g, root, visited, pending);
        pending := pending[..|pending| - 1];
        continue;
      }
      assert v in pending;
      var open := IsVisibleMessageWindow(g, v.id);
      if open { return Dialogue; }
      var children := if g[v.id].children.Some? then g[v.id].children.value else [];
      VisitKeeps(g, root, visited, pending, v.id, children);
      VisitedBound(g, visited, v.id);
      visited := visited + [v.id];
      pending := pending[..|pending| - 1] + children;
    }
    NothingLeft(g, root, visited);
    return Unknown;
  }
}
