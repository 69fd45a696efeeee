/**
 AdjustStream of the priority scheduler for any stream: one that has a node, one that is closed and
 forgotten, and an idle one that gets a node of its own, for which an older idle node may go.

 A node that goes may leave kids behind, so the nodes ever made form a forest: the scheduler's tree,
 and below each evicted node what still hangs from it.
 */
module PriorityAdjust {
  import opened Sequences
  import opened PriorityTree
  import opened PriorityRemove

  // ------------------------------------------------------------- a new node

  lemma {:induction false} ClimbsMore(P: Parents, n: Node, root: Node, x: Node, k: nat)
    requires n !in P && Climbs(P, x, k)
    ensures Climbs(P[n := root], x, k)
  {
    if P[x] != null { ClimbsMore(P, n, root, P[x], k - 1); }
  }

  /** A new leaf under a root keeps a forest. */
  lemma LeafIsForest(P: Parents, roots: set<Node>, root: Node, n: Node)
    requires IsForest(P, roots) && root in roots && n !in P
    ensures IsForest(P[n := root], roots)
  {
    var Q := P[n := root];
    forall x | x in Q ensures Rooted(Q, x) {
      if x != n {
        var k := TreeClimbs(P, roots, x);
        ClimbsMore(P, n, root, x, k);
      } else {
        assert Climbs(Q, root, 0);
        assert Climbs(Q, n, 1);
      }
    }
  }

  lemma LooseLinked(L: Links, K: Forest, n: Node)
    requires Linked(L, K) && n !in L
    ensures Linked(L[n := Link(null, null, null, null)], K[n := []])
  {
    hide Linked;
    var M, K2 := L[n := Link(null, null, null, null)], K[n := []];
    LinkedKeys(L, K);
    forall p | p in K2 ensures KidsAre(M, p, K2[p]) { if p != n { LinkedKids(L, K, p); } }
    forall x | x in M ensures Placed(M, K2, x) { if x != n { LinkedPlaced(L, K, x); } }
    LinkedBy(M, K2);
  }

  lemma LinkedKeys(L: Links, K: Forest)
    requires Linked(L, K)
    ensures K.Keys == L.Keys
  {
  }

  lemma LinkedBy(L: Links, K: Forest)
    requires K.Keys == L.Keys && (forall p :: p in K ==> KidsAre(L, p, K[p])) && forall x :: x in L ==> Placed(L, K, x)
    ensures Linked(L, K)
  {
    hide KidsAre, Placed;
  }

  lemma LooseNode(S: set<Node>, n: Node)
    requires n !in S && n.parent == null && n.kids == null && n.prev == null && n.next == null
    ensures LinksOf(S + {n}) == LinksOf(S)[n := Link(null, null, null, null)]
    ensures ParentsOf(LinksOf(S + {n})) == ParentsOf(LinksOf(S))[n := null]
  {
  }

  lemma SingleTree(root: Node)
    requires root.parent == null && root.kids == null && root.prev == null && root.next == null
    ensures WellFormed(map[root := []], root)
  {
    var K: Forest := map[root := []];
    assert K.Keys == {root};
    var L := LinksOf({root});
    assert L == map[root := Link(null, null, null, null)];
    LinkedBy(L, K);
    assert Climbs(ParentsOf(L), root, 0);
  }

  /** Hangs a new node under the root. */
  method Attach(n: Node, root: Node, ghost roots: set<Node>, ghost K: Forest) returns (ghost K2: Forest)
    requires Forested(K, roots) && n !in K && root in K && root in roots
    requires n.parent == null && n.kids == null && n.prev == null && n.next == null
    modifies K.Keys`parent, K.Keys`kids, K.Keys`prev, K.Keys`next, n`parent, n`kids, n`prev, n`next
    ensures K2 == K[n := []][root := [n] + K[root]] && Forested(K2, roots)
    ensures ParentsOf(LinksOf(K2.Keys)) == old(ParentsOf(LinksOf(K.Keys)))[n := root]
  {
    hide Linked, LinksOf, ParentsOf, IsForest;
    ghost var S, P := K.Keys, ParentsOf(LinksOf(K.Keys));
    LinkKeys(S);
    LooseNode(S, n);
    LooseLinked(LinksOf(S), K, n);
    LeafIsForest(P, roots, root, n);
    ghost var K1 := K[n := []];
    assert K1.Keys == S + {n};
    K2 := SetParent(n, root, K1);
    ghost var Q: Parents := P[n := null];
    assert Q[n := root] == P[n := root];
  }

  // ------------------------------------------------------------- when it is one tree

  lemma DropRootsLinked(L: Links, K: Forest, R: set<Node>)
    requires Linked(L, K) && forall r :: r in R ==> r in K && K[r] == [] && L[r].parent == null
    ensures Linked(L - R, K - R)
  {
    hide Linked;
    LinkedKeys(L, K);
    var L2, K2 := L - R, K - R;
    forall p | p in K2 ensures KidsAre(L2, p, K2[p]) {
      LinkedKids(L, K, p);
      forall i | 0 <= i < |K[p]| ensures K[p][i] !in R { assert L[K[p][i]].parent == p; }
    }
    forall x | x in L2 ensures Placed(L2, K2, x) {
      LinkedPlaced(L, K, x);
    }
    assert K2.Keys == L2.Keys;
    LinkedBy(L2, K2);
  }

  lemma {:induction false} ClimbsWithout(P: Parents, R: set<Node>, x: Node, k: nat)
    requires Climbs(P, x, k) && x !in R && forall y :: y in P ==> P[y] == null || P[y] !in R
    ensures Climbs(P - R, x, k)
  {
    if P[x] != null { ClimbsWithout(P, R, P[x], k - 1); }
  }

  lemma RestrictedLinks(S: set<Node>, R: set<Node>)
    ensures LinksOf(S - R) == LinksOf(S) - R && ParentsOf(LinksOf(S - R)) == ParentsOf(LinksOf(S)) - R
  {
  }

  lemma ForestWithout(P: Parents, roots: set<Node>, root: Node, R: set<Node>)
    requires IsForest(P, roots) && root in roots && R == roots - {root}
    requires forall y :: y in P ==> P[y] == null || P[y] !in R
    ensures IsForest(P - R, {root})
  {
    var Q := P - R;
    forall x | x in Q ensures Rooted(Q, x) {
      var k := TreeClimbs(P, roots, x);
      ClimbsWithout(P, R, x, k);
    }
  }

  lemma NotForestWithout(P: Parents, R: set<Node>, root: Node, x: Node)
    requires x in P && x !in R && x != root && P[x] in R
    ensures !IsForest(P - R, {root})
  {
    assert (P - R)[x] == P[x] && P[x] !in P - R;
  }

  /** What is left without the other roots is one tree if and only if nothing hangs from them. */
  lemma OneTreeIff(K: Forest, roots: set<Node>, root: Node)
    requires Forested(K, roots) && root in roots && roots <= K.Keys
    ensures WellFormed(K - (roots - {root}), root) <==> forall r :: r in roots && r != root ==> K[r] == []
  {
    hide Linked, LinksOf, ParentsOf, IsForest;
    var S, R := K.Keys, roots - {root};
    var L := LinksOf(S);
    var P := ParentsOf(L);
    LinkKeys(S);
    RestrictedLinks(S, R);
    assert (K - R).Keys == S - R;
    forall r | r in R ensures r in L && P[r] == null && L[r].parent == null { RootOf(P, roots, r); ParentIs(L, r); }
    forall r | r in R ensures forall x :: x in K[r] <==> x in P && P[x] == r { MembersByParent(S, K, r); }
    if forall r :: r in R ==> K[r] == [] {
      DropRootsLinked(L, K, R);
      ForestWithout(P, roots, root, R);
    } else {
      var r :| r in R && K[r] != [];
      var x := K[r][0];
      assert x in K[r];
      RootOf(P, roots, root);
      NotForestWithout(P, R, root, x);
    }
  }

  lemma ParentIs(L: Links, x: Node)
    requires x in ParentsOf(L)
    ensures x in L && ParentsOf(L)[x] == L[x].parent
  {
  }

  // ------------------------------------------------------------- the scheduler's nodes

  /** Nodes stand under their ids, none above the largest. */
  ghost predicate IndexedIn(root: Node, nodes: map<nat, Node>, maxID: nat, roots: set<Node>, K: Forest) {
    && root.id == 0 && root in K && root in roots
    && (forall id :: id in nodes ==> nodes[id] in K && nodes[id].id == id && (nodes[id] in roots ==> nodes[id] == root))
    && (forall id :: id in nodes ==> id <= maxID || nodes[id] == root)
  }

  ghost predicate ListedIn(root: Node, nodes: map<nat, Node>, idle: seq<Node>, maxIdle: nat, K: Forest) {
    && |idle| <= maxIdle && Distinct(idle)
    && forall x :: x in idle ==> x in K && x != root && x.id in nodes && nodes[x.id] == x
  }

  lemma Register(root: Node, nodes: map<nat, Node>, maxID: nat, idle: seq<Node>, maxIdle: nat, roots: set<Node>, K: Forest, n: Node, K1: Forest)
    requires IndexedIn(root, nodes, maxID, roots, K) && ListedIn(root, nodes, idle, maxIdle, K)
    requires n !in K && n !in roots && n.id > maxID && n.id !in nodes && K1.Keys == K.Keys + {n}
    ensures IndexedIn(root, nodes[n.id := n], n.id, roots, K1) && ListedIn(root, nodes[n.id := n], idle, maxIdle, K1) && n !in idle
  {
  }

  lemma Unregister(root: Node, nodes: map<nat, Node>, maxID: nat, idle: seq<Node>, maxIdle: nat, roots: set<Node>, K: Forest, K2: Forest)
    requires IndexedIn(root, nodes, maxID, roots, K) && ListedIn(root, nodes, idle, maxIdle, K) && idle != [] && K2.Keys == K.Keys
    ensures IndexedIn(root, nodes - {idle[0].id}, maxID, roots + {idle[0]}, K2) && ListedIn(root, nodes - {idle[0].id}, idle[1..], maxIdle, K2)
  {
    var rest := idle[1..];
    forall i, j | 0 <= i < j < |rest| ensures rest[i] != rest[j] { assert rest[i] == idle[i + 1] && rest[j] == idle[j + 1]; }
    forall x | x in rest ensures x in idle && x != idle[0] { }
  }

  lemma RootIn(root: Node, nodes: map<nat, Node>, maxID: nat, roots: set<Node>, K: Forest)
    requires IndexedIn(root, nodes, maxID, roots, K)
    ensures root in K && root.id == 0 && root in roots
    ensures forall id :: id in nodes ==> nodes[id] in K && nodes[id].id == id && (nodes[id] != root ==> nodes[id] !in roots)
  {
  }

  lemma ListedFacts(root: Node, nodes: map<nat, Node>, idle: seq<Node>, maxIdle: nat, K: Forest)
    requires ListedIn(root, nodes, idle, maxIdle, K)
    ensures |idle| <= maxIdle
    ensures idle != [] ==> idle[0] in K && idle[0] != root && idle[0].id in nodes && nodes[idle[0].id] == idle[0]
    ensures forall x :: x in idle ==> x in K
  {
  }

  lemma Enlist(root: Node, nodes: map<nat, Node>, idle: seq<Node>, maxIdle: nat, K: Forest, n: Node)
    requires ListedIn(root, nodes, idle, maxIdle, K) && |idle| < maxIdle
    requires n in K && n != root && n !in idle && n.id in nodes && nodes[n.id] == n
    ensures ListedIn(root, nodes, idle + [n], maxIdle, K)
  {
  }

  class PriorityNodes {
    const root: Node
    const maxIdle: nat
    var nodes: map<nat, Node>
    var maxID: nat
    var idle: seq<Node>

    ghost predicate Indexed(roots: set<Node>, K: Forest) reads this { IndexedIn(root, nodes, maxID, roots, K) }

    constructor (maxIdle: nat)
      ensures fresh(root) && WellFormed(map[root := []], root) && Indexed({root}, map[root := []]) && Listed(map[root := []]) && idle == []
    {
      this.maxIdle := maxIdle;
      root := new Node(0, NodeState.Open);
      maxID, idle := 0, [];
      nodes := map[];
      new;
      nodes := map[0 := root];
      SingleTree(root);
    }

    /** The idle nodes are different nodes of the tree. */
    ghost predicate Listed(K: Forest) reads this { ListedIn(root, nodes, idle, maxIdle, K) }

    ghost predicate Full() reads this { |idle| == maxIdle && idle != [] }

    predicate Idle(streamID: nat) reads this { streamID !in nodes && streamID > maxID && maxIdle > 0 }

    ghost function Victims(): seq<Node> reads this { if Full() then [idle[0]] else [] }

    ghost function Victim(): set<Node> reads this { if Full() then {idle[0]} else {} }

    ghost function NodesLeft(): map<nat, Node> reads this { if Full() then nodes - {idle[0].id} else nodes }

    /** The oldest node of a full list goes, and leaves its kids, all but the first, behind. */
    method AddIdle(n: Node, ghost roots: set<Node>, ghost K: Forest) returns (ghost K2: Forest)
      requires Forested(K, roots) && Indexed(roots, K) && Listed(K) && maxIdle > 0
      requires n in K && n !in idle && n != root && n.id in nodes && nodes[n.id] == n
      modifies this`nodes, this`idle, K.Keys`parent, K.Keys`kids, K.Keys`prev, K.Keys`next
      ensures K2.Keys == K.Keys && Forested(K2, roots + old(Victim())) && Indexed(roots + old(Victim()), K2) && Listed(K2)
      ensures nodes == old(NodesLeft()) && idle == (if old(Full()) then old(idle)[1..] else old(idle)) + [n]
      ensures ParentsOf(LinksOf(K2.Keys)) == AfterEviction(old(ParentsOf(LinksOf(K.Keys))), K, old(Victims()))
    {
      hide Linked, LinksOf, ParentsOf, IsForest, Forested, IndexedIn, ListedIn, Detached;
      ListedFacts(root, nodes, idle, maxIdle, K);
      RootIn(root, nodes, maxID, roots, K);
      LinkKeys(K.Keys);
      K2 := K;
      if |idle| == maxIdle {
        var v := idle[0];
        K2 := Detach(v, roots, K);
        Unregister(root, nodes, maxID, idle, maxIdle, roots, K, K2);
        nodes := nodes - {v.id};
        idle := idle[1..];
      } else {
        assert roots + {} == roots;
      }
      Enlist(root, nodes, idle, maxIdle, K2, n);
      idle := idle + [n];
    }

    /** An idle stream gets a node under the root, and a place in the list of idle nodes. */
    method AddNode(streamID: nat, ghost roots: set<Node>, ghost K: Forest) returns (n: Node, ghost K2: Forest)
      requires Forested(K, roots) && Indexed(roots, K) && Listed(K) && Idle(streamID) && streamID != 0 && roots <= K.Keys
      modifies this`nodes, this`idle, this`maxID, K.Keys`parent, K.Keys`kids, K.Keys`prev, K.Keys`next
      ensures fresh(n) && n.id == streamID && n.weight == DEFAULT_WEIGHT && n !in K && K2.Keys == K.Keys + {n}
      ensures Forested(K2, roots + old(Victim())) && Indexed(roots + old(Victim()), K2) && Listed(K2)
      ensures nodes == old(NodesLeft())[streamID := n] && n !in roots + old(Victim())
      ensures ParentsOf(LinksOf(K2.Keys)) == Entered(old(ParentsOf(LinksOf(K.Keys))), K, root, n, old(Victims()))
    {
      hide Linked, LinksOf, ParentsOf, IsForest, Forested, IndexedIn, ListedIn, Detached;
      ListedFacts(root, nodes, idle, maxIdle, K);
      RootIn(root, nodes, maxID, roots, K);
      ghost var P, was, last := ParentsOf(LinksOf(K.Keys)), nodes, maxID;
      maxID := streamID;
      n := new Node(streamID, NodeState.Idle);
      ghost var K1 := Attach(n, root, roots, K);
      Register(root, was, last, idle, maxIdle, roots, K, n, K1);
      nodes := nodes[streamID := n];
      SameKids(P, K, K1, root, n, old(Victims()));
      assert Victims() == old(Victims()) && NodesLeft() == old(NodesLeft())[streamID := n];
      K2 := AddIdle(n, roots, K1);
    }

    /**
     AdjustStream. A stream that is closed and has no node changes nothing; an idle one is entered
     first, and may evict another; then the dependency decides. Whatever happens, the links stay
     consistent and without cycles, with the evicted nodes as further roots.
     */
    method AdjustAny(streamID: nat, dep: nat, exclusive: bool, weight: nat, ghost roots: set<Node>, ghost K: Forest)
      returns (ghost roots2: set<Node>, ghost K2: Forest)
      requires Forested(K, roots) && Indexed(roots, K) && Listed(K) && streamID != 0 && roots <= K.Keys
      modifies this`nodes, this`idle, this`maxID, K.Keys`parent, K.Keys`kids, K.Keys`prev, K.Keys`next, K.Keys`weight
      ensures Forested(K2, roots2) && Indexed(roots2, K2) && Listed(K2) && roots2 <= K2.Keys
      ensures roots2 == if old(Idle(streamID)) then roots + old(Victim()) else roots
      ensures streamID !in old(nodes) && !old(Idle(streamID)) ==>
        K2 == K && nodes == old(nodes) && ParentsOf(LinksOf(K2.Keys)) == old(ParentsOf(LinksOf(K.Keys)))
      ensures streamID in old(nodes) ==>
        && K2.Keys == K.Keys && nodes == old(nodes) && nodes[streamID] in old(ParentsOf(LinksOf(K.Keys)))
        && ParentsOf(LinksOf(K2.Keys)) == Adjusted(old(ParentsOf(LinksOf(K.Keys))), root, nodes[streamID], nodes, dep, exclusive)
      ensures old(Idle(streamID)) ==>
        && streamID in nodes && fresh(nodes[streamID]) && nodes == old(NodesLeft())[streamID := nodes[streamID]]
        && K2.Keys == K.Keys + {nodes[streamID]}
        && var P := Entered(old(ParentsOf(LinksOf(K.Keys))), K, root, nodes[streamID], old(Victims()));
        && nodes[streamID] in P && ParentsOf(LinksOf(K2.Keys)) == Adjusted(P, root, nodes[streamID], nodes, dep, exclusive)
      ensures streamID in nodes && dep in nodes && dep != streamID ==>
        nodes[streamID].parent == nodes[dep] && nodes[streamID].weight == weight && (exclusive ==> K2[nodes[dep]] == [nodes[streamID]])
      ensures streamID in nodes && dep !in nodes ==> nodes[streamID].parent == root && nodes[streamID].weight == DEFAULT_WEIGHT
    {
      hide Linked, LinksOf, ParentsOf, IsForest, Forested, Entered, IndexedIn, ListedIn;
      ListedFacts(root, nodes, idle, maxIdle, K);
      roots2, K2 := roots, K;
      if streamID !in nodes {
        if streamID <= maxID || maxIdle == 0 { return; }
        roots2 := roots + Victim();
        var n;
        n, K2 := AddNode(streamID, roots, K);
      }
      RootIn(root, nodes, maxID, roots2, K2);
      ghost var K1 := K2;
      K2 := AdjustStream(nodes, root, streamID, dep, exclusive, weight, roots2, K2);
      SameIndex(root, nodes, maxID, idle, maxIdle, roots2, K1, K2);
    }
  }

  lemma SameIndex(root: Node, nodes: map<nat, Node>, maxID: nat, idle: seq<Node>, maxIdle: nat, roots: set<Node>, K: Forest, K2: Forest)
    requires IndexedIn(root, nodes, maxID, roots, K) && ListedIn(root, nodes, idle, maxIdle, K) && K2.Keys == K.Keys
    ensures IndexedIn(root, nodes, maxID, roots, K2) && ListedIn(root, nodes, idle, maxIdle, K2)
  {
  }

  /** The parents when the node of `victim`, if there is one, is evicted. */
  ghost function AfterEviction(P: Parents, K: Forest, victim: seq<Node>): Parents {
    if victim != [] && victim[0] in P && victim[0] in K then Detached(P, victim[0], K[victim[0]]) else P
  }

  /** The parents when a node is entered under the root. */
  ghost function Entered(P: Parents, K: Forest, root: Node, n: Node, victim: seq<Node>): Parents {
    var Q: Parents := P[n := root];
    AfterEviction(Q, K, victim)
  }

  lemma SameKids(P: Parents, K: Forest, K1: Forest, root: Node, n: Node, victim: seq<Node>)
    requires root in K && n !in K && K1 == K[n := []][root := [n] + K[root]] && n !in victim && root !in victim
    ensures AfterEviction(P[n := root], K1, victim) == Entered(P, K, root, n, victim)
  {
  }
}
