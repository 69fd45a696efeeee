/**
 removeNode of the priority write scheduler. Its loop follows `next` after the node has been
 relinked, so it moves the first kid only; the tree survives exactly when there is at most one.
 */
module PriorityRemove {
  import opened PriorityTree

  /** What is left of the parents when `n` is gone. */
  ghost function Removed(P: Parents, n: Node, k: Node?): Parents
    requires n in P
  {
    map x | x in P && x != n :: if x == k then P[n] else P[x]
  }

  /** Climbing still works when the kids of `n`, at most `k`, hang from n's parent. */
  lemma {:induction false} ClimbsAround(P: Parents, root: Node, n: Node, k: Node?, x: Node, h: nat)
    requires IsTree(P, root) && n in P && n != root && Climbs(P, x, h) && x != n
    requires forall y :: y in P && P[y] == n ==> y == k
    requires k != null ==> k in P && P[k] == n
    ensures Rooted(Removed(P, n, k), x)
    decreases h
  {
    var Q := Removed(P, n, k);
    DepthOfKid(P, {root}, n);
    if P[x] == null {
      assert Climbs(Q, x, 0);
    } else if x == k {
      ClimbsAround(P, root, n, k, P[n], h - 2);
      var j: nat :| Climbs(Q, P[n], j);
      assert Climbs(Q, x, j + 1);
    } else {
      ClimbsAround(P, root, n, k, P[x], h - 1);
      var j: nat :| Climbs(Q, P[x], j);
      assert Climbs(Q, x, j + 1);
    }
  }

  lemma RemovedIsTree(P: Parents, root: Node, n: Node, k: Node?)
    requires IsTree(P, root) && n in P && n != root
    requires forall y :: y in P && P[y] == n ==> y == k
    requires k != null ==> k in P && P[k] == n
    ensures IsTree(Removed(P, n, k), root)
  {
    var Q := Removed(P, n, k);
    DepthOfKid(P, {root}, n);
    forall x | x in Q
      ensures Rooted(Q, x)
    {
      var h := TreeClimbs(P, {root}, x);
      ClimbsAround(P, root, n, k, x, h);
    }
    forall x | x in Q && x != root
      ensures Q[x] != null && Q[x] in Q
    {
      if x != k && P[x] == n {
        assert false;
      }
    }
  }

  /** Lists and links of a forest that has lost the loose, childless node `n`. */
  lemma LinkedDrop(L: Links, K: Forest, n: Node)
    requires Linked(L, K) && n in K && L[n].parent == null && K[n] == []
    ensures Linked(L - {n}, K - {n})
  {
    var L2, K2 := L - {n}, K - {n};
    forall p | p in K2
      ensures KidsAre(L2, p, K2[p])
    {
      LinkedKids(L, K, p);
      assert n !in K[p];
    }
    forall x | x in L2
      ensures Placed(L2, K2, x)
    {
      LinkedPlaced(L, K, x);
      if L[x].parent != null {
        LinkedKids(L, K, L[x].parent);
      }
    }
  }

  lemma LinksWithout(S: set<Node>, n: Node)
    ensures LinksOf(S - {n}) == LinksOf(S) - {n}
  {
  }

  /** The lists when the first kid of `n` has gone to the head of the list under `q`. */
  ghost function FirstMoved(K: Forest, n: Node, q: Node): Forest
    requires n in K && q in K && K[n] != []
  {
    K[n := K[n][1..]][q := [K[n][0]] + K[q]]
  }

  lemma MoveFirstIs(K: Forest, n: Node, q: Node)
    requires n in K && q in K && K[n] != [] && n != q
    ensures MovedKids(K, K[n][0], n, q) == FirstMoved(K, n, q)
    ensures FirstMoved(K, n, q)[q] == [K[n][0]] + K[q] && FirstMoved(K, n, q).Keys == K.Keys
  {
  }

  lemma NoMove(K: Forest, P: Parents, k: Node, q: Node)
    requires q in K && k in P && P[k] == q
    ensures MovedKids(K, k, q, q) == K && P[k := q] == P
  {
  }

  /** One step along the list under `p`. */
  lemma ListStep(S: set<Node>, K: Forest, p: Node, j: nat)
    requires Linked(LinksOf(S), K) && p in K && j < |K[p]|
    ensures K[p][j] in S && K[p][j].parent == p && K[p][j].next == At(K[p], j + 1)
  {
    LinkedKids(LinksOf(S), K, p);
    LinkKeys(S);
    LinkFields(S, K[p][j]);
  }

  /**
   The loop of removeNode. The first kid goes to the head of q's list; from there the loop runs
   along q's own list, where setParent finds nothing to do.
   */
  method MoveKids(n: Node, q: Node, ghost K: Forest) returns (ghost K1: Forest)
    requires Linked(LinksOf(K.Keys), K) && n in K && q in K && n != q && q !in K[n] && q !in K[q]
    modifies K.Keys`parent, K.Keys`kids, K.Keys`prev, K.Keys`next
    ensures K1.Keys == K.Keys && Linked(LinksOf(K.Keys), K1)
    ensures K1 == if K[n] == [] then K else FirstMoved(K, n, q)
    ensures ParentsOf(LinksOf(K.Keys))
         == if K[n] == [] then old(ParentsOf(LinksOf(K.Keys))) else old(ParentsOf(LinksOf(K.Keys)))[K[n][0] := q]
  {
    hide Linked, KidsAre, LinksOf, ParentsOf, MovedKids, FirstMoved;
    ghost var S, P, ks := K.Keys, ParentsOf(LinksOf(K.Keys)), K[n];
    ghost var t, j := (if ks == [] then [] else [ks[0]]) + K[q], 0;
    LinkFields(S, n);
    LinkedKids(LinksOf(S), K, n);
    if ks != [] {
      MoveFirstIs(K, n, q);
    }
    K1 := K;
    var k := n.kids;
    while k != null
      invariant j <= |t| && k == (if j == 0 && ks == [] then null else At(t, j))
      invariant K1.Keys == S && Linked(LinksOf(S), K1)
      invariant j > 0 ==> ks != [] && K1[q] == t
      invariant K1 == if j == 0 then K else FirstMoved(K, n, q)
      invariant ParentsOf(LinksOf(S)) == if j == 0 then P else P[ks[0] := q]
      decreases |t| - j
    {
      if j == 0 {
        ListStep(S, K1, n, 0);
      } else {
        ListStep(S, K1, q, j);
        LinkFields(S, k);
        NoMove(K1, ParentsOf(LinksOf(S)), k, q);
      }
      K1 := SetParent(k, q, K1);
      ListStep(S, K1, q, j);
      k := k.next;
      j := j + 1;
    }
  }

  /** With two kids or more, some remaining node has a parent that is no longer there. */
  lemma Orphan(S: set<Node>, root: Node, n: Node, x: Node)
    requires x in S && x != n && x != root && x.parent == n
    ensures !IsTree(ParentsOf(LinksOf(S - {n})), root)
  {
    LinkFields(S - {n}, x);
  }

  lemma RemovedParents(L: Links, P: Parents, n: Node, ks: seq<Node>)
    requires n in P && P.Keys == L.Keys && |ks| <= 1 && n !in ks
    requires forall x :: x in ks ==> x in P
    requires P[n] != null
    requires ParentsOf(L) == (if ks == [] then P else P[ks[0] := P[n]])[n := null]
    ensures ParentsOf(L - {n}) == Removed(P, n, At(ks, 0))
  {
    forall x | x in L && x != n
      ensures ParentsOf(L - {n})[x] == Removed(P, n, At(ks, 0))[x]
    {
      assert ParentsOf(L)[x] == L[x].parent;
    }
  }

  /** The facts about `n` and its parent that removeNode relies on. */
  lemma Around(S: set<Node>, K: Forest, roots: set<Node>, n: Node)
    requires K.Keys == S && Forested(K, roots) && n in S && n !in roots
    ensures n.parent != null && n.parent in S && n.parent != n
    ensures n.parent !in K[n] && n.parent !in K[n.parent] && n !in K[n] && forall r :: r in roots ==> r !in K[n]
    ensures forall x :: x in K[n] <==> x in ParentsOf(LinksOf(S)) && ParentsOf(LinksOf(S))[x] == n
  {
    hide Linked, LinksOf, ParentsOf;
    var P, q := ParentsOf(LinksOf(S)), n.parent;
    LinkKeys(S);
    LinkFields(S, n);
    DepthOfKid(P, roots, n);
    forall p | p == n || p == q
      ensures forall x :: x in K[p] <==> x in P && P[x] == p
    {
      MembersByParent(S, K, p);
    }
    if q in K[n] || q in K[q] {
      DepthOfKid(P, roots, q);
    }
  }

  lemma MembersByParent(S: set<Node>, K: Forest, p: Node)
    requires Linked(LinksOf(S), K) && p in K
    ensures forall x :: x in K[p] <==> x in ParentsOf(LinksOf(S)) && ParentsOf(LinksOf(S))[x] == p
  {
    KidsByParent(LinksOf(S), K, p);
  }

  /** Taking the loose node `n` out of a forest where only `k` hung from it. */
  lemma DropLoose(S: set<Node>, K: Forest, P: Parents, root: Node, n: Node, ks: seq<Node>)
    requires n in S && n in P && n != root && P.Keys == S && IsTree(P, root)
    requires Linked(LinksOf(S), K) && K.Keys == S && K[n] == [] && n.parent == null
    requires |ks| <= 1 && n !in ks && P[n] != null && forall x :: x in ks <==> x in P && P[x] == n
    requires ParentsOf(LinksOf(S)) == (if ks == [] then P else P[ks[0] := P[n]])[n := null]
    ensures WellFormed(K - {n}, root)
    ensures ParentsOf(LinksOf(S - {n})) == Removed(P, n, At(ks, 0))
  {
    hide Linked, LinksOf, ParentsOf, IsForest;
    LinkKeys(S);
    LinkFields(S, n);
    LinksWithout(S, n);
    LinkedDrop(LinksOf(S), K, n);
    RemovedParents(LinksOf(S), P, n, ks);
    RemovedIsTree(P, root, n, At(ks, 0));
    assert (K - {n}).Keys == S - {n};
  }

  lemma SecondKid(K: Forest, n: Node, q: Node)
    requires n in K && q in K && n != q && q !in K[n]
    ensures K[n] != [] ==>
      FirstMoved(K, n, q)[n] == K[n][1..] && MovedKids(FirstMoved(K, n, q), n, q, null)[n] == K[n][1..]
    ensures K[n] == [] ==> MovedKids(K, n, q, null)[n] == []
  {
  }

  /** The parents when `n` has lost its place and its first kid. */
  ghost function Detached(P: Parents, n: Node, ks: seq<Node>): Parents
    requires n in P
  {
    (if ks == [] then P else P[ks[0] := P[n]])[n := null]
  }

  /** Cutting `n` loose makes it a root of its own, with the kids that stay. */
  lemma DetachedIsForest(P: Parents, roots: set<Node>, n: Node, ks: seq<Node>)
    requires IsForest(P, roots) && n in P && n !in roots
    requires n !in ks && forall x :: x in ks <==> x in P && P[x] == n
    ensures IsForest(Detached(P, n, ks), roots + {n})
  {
    var Q, q := Detached(P, n, ks), P[n];
    DepthOfKid(P, roots, n);
    if ks != [] {
      assert ks[0] in ks;
      DepthOfKid(P, roots, ks[0]);
    }
    forall y | y in P && (IsAncestor(P, y, q) || y == q)
      ensures Q[y] == P[y]
    {
      if y != q {
        var j: nat :| AncestorIn(P, y, q, j);
        AncestorIsHigher(P, roots, y, q, j);
      }
    }
    var h := TreeClimbs(P, roots, q);
    ClimbsUnchanged(P, Q, q, h);
    assert Climbs(Q, n, 0);
    assert ks != [] ==> Climbs(Q, ks[0], h + 1);
    var changed := if ks == [] then {n} else {n, ks[0]};
    forall x | x in Q
      ensures Rooted(Q, x)
    {
      var k := TreeClimbs(P, roots, x);
      ClimbsVia(P, Q, changed, x, k);
    }
  }

  /** The links of removeNode: whatever kids `n` has, what results is a forest, with `n` as one more root. */
  method Detach(n: Node, ghost roots: set<Node>, ghost K: Forest) returns (ghost K1: Forest)
    requires Forested(K, roots) && n in K && n !in roots
    modifies K.Keys`parent, K.Keys`kids, K.Keys`prev, K.Keys`next
    ensures K1.Keys == K.Keys && Forested(K1, roots + {n})
    ensures n in old(ParentsOf(LinksOf(K.Keys)))
    ensures ParentsOf(LinksOf(K.Keys)) == Detached(old(ParentsOf(LinksOf(K.Keys))), n, K[n])
    ensures K1[n] == if K[n] == [] then [] else K[n][1..]
  {
    hide Linked, LinksOf, ParentsOf, IsForest, MovedKids, FirstMoved;
    ghost var S, P := K.Keys, ParentsOf(LinksOf(K.Keys));
    Around(S, K, roots, n);
    LinkKeys(S);
    LinkFields(S, n);
    DetachedIsForest(P, roots, n, K[n]);
    var q := n.parent;
    SecondKid(K, n, q);
    K1 := MoveKids(n, q, K);
    LinkFields(S, n);
    K1 := SetParent(n, null, K1);
  }

  /**
   removeNode. The nodes that remain form a well-linked tree if and only if `n` had at most one
   kid; with more, the second one keeps a parent outside the tree.
   */
  method RemoveNode(n: Node, root: Node, ghost K: Forest) returns (ghost K2: Forest)
    requires WellFormed(K, root) && n in K && n != root
    modifies K.Keys`parent, K.Keys`kids, K.Keys`prev, K.Keys`next
    ensures K2.Keys == K.Keys - {n}
    ensures |K[n]| <= 1 <==> WellFormed(K2, root)
    ensures n in old(ParentsOf(LinksOf(K.Keys)))
    ensures |K[n]| <= 1 ==>
      ParentsOf(LinksOf(K2.Keys)) == Removed(old(ParentsOf(LinksOf(K.Keys))), n, At(K[n], 0))
  {
    hide Linked, LinksOf, ParentsOf, IsForest, MovedKids;
    ghost var S, P, ks := K.Keys, ParentsOf(LinksOf(K.Keys)), K[n];
    Around(S, K, {root}, n);
    LinkKeys(S);
    LinkFields(S, n);
    ghost var K1 := Detach(n, {root}, K);
    LinkFields(S, n);
    K2 := K1 - {n};
    assert K2.Keys == S - {n};
    if |ks| <= 1 {
      DropLoose(S, K1, P, root, n, ks);
    } else {
      ListStep(S, K1, n, 0);
      Orphan(S, root, n, K1[n][0]);
    }
  }
}
