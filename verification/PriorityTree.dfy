/**
 The HTTP/2 priority tree: nodes in an intrusive doubly linked forest, and the reparenting
 that PRIORITY frames cause (sections 5.3.1 and 5.3.3 of RFC 7540).
 */
module PriorityTree {
  import opened Sequences
  import opened WriteQueue

  datatype NodeState = Open | Closed | Idle

  const DEFAULT_WEIGHT := 15

  class Node {
    const id: nat
    var q: seq<WriteReq>
    var weight: nat
    var state: NodeState
    var bytes: int
    var subtreeBytes: int
    var parent: Node?
    var kids: Node?
    var prev: Node?
    var next: Node?

    constructor (id: nat, state: NodeState)
      ensures this.id == id && this.state == state && weight == DEFAULT_WEIGHT && q == []
      ensures parent == null && kids == null && prev == null && next == null
    {
      this.id := id;
      this.state := state;
      q := [];
      weight := DEFAULT_WEIGHT;
      bytes, subtreeBytes := 0, 0;
      parent, kids, prev, next := null, null, null, null;
    }
  }

  // --------------------------------------------------- abstract parent maps

  type Parents = map<Node, Node?>

  /** `x` comes to a node without parent in at most `k` steps up. */
  ghost predicate Climbs(P: Parents, x: Node, k: nat) {
    x in P && (P[x] == null || (k > 0 && Climbs(P, P[x], k - 1)))
  }

  /** `a` is met within `k` steps up from `x`, `x` itself not counted. */
  ghost predicate AncestorIn(P: Parents, a: Node, x: Node, k: nat) {
    x in P && P[x] != null && k > 0 && (P[x] == a || AncestorIn(P, a, P[x], k - 1))
  }

  ghost predicate IsAncestor(P: Parents, a: Node, x: Node) {
    exists k: nat :: AncestorIn(P, a, x, k)
  }

  ghost predicate Rooted(P: Parents, x: Node) {
    exists k: nat :: Climbs(P, x, k)
  }

  /** Every node reaches one of `roots`, the nodes without parent. */
  ghost predicate IsForest(P: Parents, roots: set<Node>) {
    && (forall r :: r in roots ==> r in P && P[r] == null)
    && (forall x :: x in P && x !in roots ==> P[x] != null && P[x] in P)
    && (forall x :: x in P ==> Rooted(P, x))
  }

  ghost predicate IsTree(P: Parents, root: Node) { IsForest(P, {root}) }

  /** Distance to a root. */
  ghost function Steps(P: Parents, x: Node, k: nat): nat
    requires Climbs(P, x, k)
  {
    if P[x] == null then 0 else 1 + Steps(P, P[x], k - 1)
  }

  lemma {:induction false} StepsUnique(P: Parents, x: Node, j: nat, k: nat)
    requires Climbs(P, x, j) && Climbs(P, x, k)
    ensures Steps(P, x, j) == Steps(P, x, k)
    decreases j
  {
    if P[x] != null {
      StepsUnique(P, P[x], j - 1, k - 1);
    }
  }

  ghost function Depth(P: Parents, roots: set<Node>, x: Node): (d: nat)
    requires IsForest(P, roots) && x in P
    ensures exists k: nat :: Climbs(P, x, k) && d == Steps(P, x, k)
  {
    assert Rooted(P, x);
    var k: nat :| Climbs(P, x, k);
    Steps(P, x, k)
  }

  lemma DepthOfKid(P: Parents, roots: set<Node>, x: Node)
    requires IsForest(P, roots) && x in P && x !in roots
    ensures Depth(P, roots, x) == Depth(P, roots, P[x]) + 1
  {
    var d, e := Depth(P, roots, x), Depth(P, roots, P[x]);
    var k: nat :| Climbs(P, x, k) && d == Steps(P, x, k);
    var j: nat :| Climbs(P, P[x], j) && e == Steps(P, P[x], j);
    StepsUnique(P, P[x], k - 1, j);
  }

  lemma {:induction false} AncestorIsHigher(P: Parents, roots: set<Node>, a: Node, x: Node, k: nat)
    requires IsForest(P, roots) && AncestorIn(P, a, x, k)
    ensures a in P && Depth(P, roots, a) < Depth(P, roots, x)
    decreases k
  {
    assert x !in roots;
    DepthOfKid(P, roots, x);
    if P[x] != a {
      AncestorIsHigher(P, roots, a, P[x], k - 1);
    }
  }

  /** A path up that meets only nodes whose parent is unchanged is still a path up. */
  lemma {:induction false} ClimbsUnchanged(P: Parents, Q: Parents, x: Node, k: nat)
    requires Climbs(P, x, k) && P.Keys == Q.Keys
    requires Q[x] == P[x]
    requires forall y :: IsAncestor(P, y, x) && y in P ==> Q[y] == P[y]
    ensures Climbs(Q, x, k)
    decreases k
  {
    if P[x] != null {
      assert AncestorIn(P, P[x], x, 1);
      forall y | IsAncestor(P, y, P[x]) && y in P
        ensures Q[y] == P[y]
      {
        var j: nat :| AncestorIn(P, y, P[x], j);
        assert AncestorIn(P, y, x, j + 1);
      }
      ClimbsUnchanged(P, Q, P[x], k - 1);
    }
  }

  /** If the changed nodes reach the root in Q, every node does. */
  lemma {:induction false} ClimbsVia(P: Parents, Q: Parents, changed: set<Node>, x: Node, k: nat)
    requires Climbs(P, x, k) && P.Keys == Q.Keys
    requires forall y :: y in P && y !in changed ==> Q[y] == P[y]
    requires forall y :: y in changed && y in Q ==> Rooted(Q, y)
    ensures Rooted(Q, x)
    decreases k
  {
    if x !in changed {
      if P[x] == null {
        assert Climbs(Q, x, 0);
      } else {
        ClimbsVia(P, Q, changed, P[x], k - 1);
        var j: nat :| Climbs(Q, P[x], j);
        assert Climbs(Q, x, j + 1);
      }
    }
  }

  /** Section 5.3.3: a new parent that depends on `n` is first moved to n's old parent. */
  ghost function Lifted(P: Parents, n: Node, parent: Node): Parents
    requires n in P
  {
    if IsAncestor(P, n, parent) then P[parent := P[n]] else P
  }

  /** Section 5.3.3: `n` goes under `parent`; an exclusive `n` adopts the other dependents. */
  ghost function Reparented(P: Parents, n: Node, parent: Node, exclusive: bool): Parents
    requires n in P
  {
    var P1 := Lifted(P, n, parent);
    (map x | x in P1 :: if exclusive && P1[x] == parent && x != n then n else P1[x])[n := parent]
  }

  lemma LiftedIsForest(P: Parents, roots: set<Node>, n: Node, parent: Node)
    requires IsForest(P, roots) && n in P && parent in P && n !in roots && n != parent
    ensures IsForest(Lifted(P, n, parent), roots)
    ensures !IsAncestor(Lifted(P, n, parent), n, parent)
  {
    var Q := Lifted(P, n, parent);
    if IsAncestor(P, n, parent) {
      var k: nat :| AncestorIn(P, n, parent, k);
      AncestorIsHigher(P, roots, n, parent, k);
      DepthOfKid(P, roots, n);
      assert parent !in roots;
      // nothing on the way from n's parent to the root is `parent` or `n`
      forall y | y in P && IsAncestor(P, y, P[n])
        ensures y != parent && y != n
      {
        var j: nat :| AncestorIn(P, y, P[n], j);
        AncestorIsHigher(P, roots, y, P[n], j);
      }
      assert Rooted(P, P[n]);
      var h: nat :| Climbs(P, P[n], h);
      ClimbsUnchanged(P, Q, P[n], h);
      assert Climbs(Q, parent, h + 1);
      forall x | x in Q
        ensures Rooted(Q, x)
      {
        assert Rooted(P, x);
        var j: nat :| Climbs(P, x, j);
        ClimbsVia(P, Q, {parent}, x, j);
      }
      if IsAncestor(Q, n, parent) {
        var j: nat :| AncestorIn(Q, n, parent, j);
        AncestorIsHigher(Q, roots, n, parent, j);
        DepthOfKid(Q, roots, parent);
        DepthOfKid(Q, roots, n);
      }
    }
  }

  /** The reparented forest has the same nodes and the same roots. */
  lemma ReparentedIsForest(P: Parents, roots: set<Node>, n: Node, parent: Node, exclusive: bool)
    requires IsForest(P, roots) && n in P && parent in P && n !in roots && n != parent
    ensures IsForest(Reparented(P, n, parent, exclusive), roots)
    ensures Reparented(P, n, parent, exclusive).Keys == P.Keys
  {
    LiftedIsForest(P, roots, n, parent);
    var P1, Q := Lifted(P, n, parent), Reparented(P, n, parent, exclusive);
    // the way from `parent` to the root meets neither n nor a dependent of `parent`
    forall y | y in P1 && IsAncestor(P1, y, parent)
      ensures Q[y] == P1[y]
    {
      var j: nat :| AncestorIn(P1, y, parent, j);
      AncestorIsHigher(P1, roots, y, parent, j);
      if P1[y] == parent {
        DepthOfKid(P1, roots, y);
      }
    }
    assert Rooted(P1, parent);
    var h: nat :| Climbs(P1, parent, h);
    assert P1[parent] != parent by {
      if P1[parent] == parent {
        DepthOfKid(P1, roots, parent);
      }
    }
    ClimbsUnchanged(P1, Q, parent, h);
    assert Climbs(Q, n, h + 1);
    var changed := {n} + set x | x in P1 && P1[x] == parent;
    forall y | y in changed && y in Q
      ensures Rooted(Q, y)
    {
      if Q[y] == n {
        assert Climbs(Q, y, h + 2);
      } else {
        assert Climbs(Q, y, h + 1);
      }
    }
    forall x | x in Q
      ensures Rooted(Q, x)
    {
      assert Rooted(P1, x);
      var j: nat :| Climbs(P1, x, j);
      ClimbsVia(P1, Q, changed, x, j);
    }
  }

  // ------------------------------------------------------ the linked forest

  /** The four link fields of a node, and those of all nodes of a forest. */
  datatype Link = Link(parent: Node?, kids: Node?, prev: Node?, next: Node?)
  type Links = map<Node, Link>

  ghost function LinksOf(S: set<Node>): Links
    reads S`parent, S`kids, S`prev, S`next
  {
    map x | x in S :: Link(x.parent, x.kids, x.prev, x.next)
  }

  ghost function ParentsOf(L: Links): Parents {
    map x | x in L :: L[x].parent
  }

  /** The sibling lists of a forest, by parent. */
  type Forest = map<Node, seq<Node>>

  function At(ks: seq<Node>, i: int): Node? {
    if 0 <= i < |ks| then ks[i] else null
  }

  /** The intrusive list under `p` holds exactly `ks`. */
  ghost predicate KidsAre(L: Links, p: Node, ks: seq<Node>) {
    && p in L && L[p].kids == At(ks, 0) && Distinct(ks)
    && (forall i :: 0 <= i < |ks| ==> ks[i] in L)
    && (forall i :: 0 <= i < |ks| ==> L[ks[i]].parent == p)
    && (forall i :: 0 <= i < |ks| ==> L[ks[i]].prev == At(ks, i - 1))
    && (forall i :: 0 <= i < |ks| ==> L[ks[i]].next == At(ks, i + 1))
  }

  /** A node is in the sibling list of its parent; without parent it is in none. */
  ghost predicate Placed(L: Links, K: Forest, x: Node) {
    && x in L
    && (L[x].parent == null ==> L[x].prev == null && L[x].next == null)
    && (L[x].parent != null ==> L[x].parent in K && x in K[L[x].parent])
  }

  /** parent, kids, prev and next agree with the sibling lists, for every node. */
  ghost predicate Linked(L: Links, K: Forest) {
    && K.Keys == L.Keys
    && (forall p :: p in K ==> KidsAre(L, p, K[p]))
    && (forall x :: x in L ==> Placed(L, K, x))
  }

  /** Membership and order of a list with position `i` taken out. */
  lemma Spliced(ks: seq<Node>, i: nat)
    requires i < |ks| && Distinct(ks)
    ensures var t := ks[..i] + ks[i + 1..];
            && Distinct(t) && (forall x :: x in t <==> x in ks && x != ks[i])
  {
    var t := ks[..i] + ks[i + 1..];
    forall x | x in ks && x != ks[i]
      ensures x in t
    {
      var j :| 0 <= j < |ks| && ks[j] == x;
      assert if j < i then t[j] == x else t[j - 1] == x;
    }
  }

  // -- the two halves of setParent on link records

  ghost function UnlinkLinks(L: Links, n: Node): (M: Links)
    requires n in L
    ensures M.Keys == L.Keys
  {
    var Link(p, _, prev, next) := L[n];
    map x | x in L ::
      Link(if x == n then null else L[x].parent,
           if x == p && prev == null then next else L[x].kids,
           if x == n then null else if x == next then prev else L[x].prev,
           if x == n then null else if x == prev then next else L[x].next)
  }

  ghost function LinkFirstLinks(L: Links, n: Node, parent: Node): (M: Links)
    requires n in L && parent in L
    ensures M.Keys == L.Keys
  {
    var head := L[parent].kids;
    map x | x in L ::
      Link(if x == n then parent else L[x].parent,
           if x == parent then n else L[x].kids,
           if x == n then null else if x == head then n else L[x].prev,
           if x == n then head else L[x].next)
  }

  /** Links inside the forest stay inside. */
  lemma LinksInside(L: Links, K: Forest, n: Node)
    requires Linked(L, K) && n in L
    ensures L[n].parent == null || L[n].parent in L
    ensures L[n].prev == null || L[n].prev in L
    ensures L[n].next == null || L[n].next in L
    ensures L[n].kids == null || L[n].kids in L
  {
    assert Placed(L, K, n) && KidsAre(L, n, K[n]);
    if L[n].parent != null {
      var p := L[n].parent;
      assert KidsAre(L, p, K[p]);
      var i :| 0 <= i < |K[p]| && K[p][i] == n;
    }
  }

  /** Taking out position `i` leaves a well-linked list. */
  lemma UnlinkKids(L: Links, p: Node, ks: seq<Node>, i: nat)
    requires KidsAre(L, p, ks) && i < |ks|
    ensures KidsAre(UnlinkLinks(L, ks[i]), p, ks[..i] + ks[i + 1..])
  {
    var n, t := ks[i], ks[..i] + ks[i + 1..];
    var M := UnlinkLinks(L, n);
    assert L[n].prev == At(ks, i - 1) && L[n].next == At(ks, i + 1) && L[n].parent == p;
    Spliced(ks, i);
    forall j | 0 <= j < |t|
      ensures t[j] in M && M[t[j]].parent == p && M[t[j]].prev == At(t, j - 1) && M[t[j]].next == At(t, j + 1)
    {
      if j < i {
        assert t[j] == ks[j];
      } else {
        assert t[j] == ks[j + 1];
      }
    }
  }

  /** The list under another parent is not touched. */
  lemma UnlinkOther(L: Links, q: Node, qs: seq<Node>, i: nat, p: Node, ks: seq<Node>)
    requires KidsAre(L, q, qs) && i < |qs| && KidsAre(L, p, ks) && p != q
    ensures KidsAre(UnlinkLinks(L, qs[i]), p, ks)
  {
    var n := qs[i];
    var M := UnlinkLinks(L, n);
    assert L[n].prev == At(qs, i - 1) && L[n].next == At(qs, i + 1) && L[n].parent == q;
    forall j | 0 <= j < |ks|
      ensures ks[j] in M && M[ks[j]] == L[ks[j]].(kids := M[ks[j]].kids)
    {
      assert L[ks[j]].parent == p;
    }
  }

  /** Every node is where its parent field says, `n` nowhere. */
  lemma UnlinkPlaced(L: Links, K: Forest, q: Node, i: nat, x: Node)
    requires q in K && KidsAre(L, q, K[q]) && i < |K[q]| && Placed(L, K, x)
    ensures Placed(UnlinkLinks(L, K[q][i]), K[q := K[q][..i] + K[q][i + 1..]], x)
  {
    var qs := K[q];
    var n := qs[i];
    assert L[n].prev == At(qs, i - 1) && L[n].next == At(qs, i + 1) && L[n].parent == q;
    Spliced(qs, i);
  }

  lemma UnlinkParents(L: Links, n: Node)
    requires n in L
    ensures ParentsOf(UnlinkLinks(L, n)) == ParentsOf(L)[n := null]
  {
  }

  lemma UnlinkLinked(L: Links, K: Forest, n: Node)
    requires Linked(L, K) && n in L && L[n].parent != null
    ensures L[n].parent in K
    ensures Linked(UnlinkLinks(L, n), K[L[n].parent := Without(K[L[n].parent], n)])
  {
    hide Linked, KidsAre, Placed, UnlinkLinks, Distinct;
    var q, M := L[n].parent, UnlinkLinks(L, n);
    var i := InParentList(L, K, n);
    var qs := K[q];
    LinkedKids(L, K, q);
    WithoutAt(qs, i);
    var K2 := K[q := qs[..i] + qs[i + 1..]];
    forall p | p in K2
      ensures KidsAre(M, p, K2[p])
    {
      LinkedKids(L, K, p);
      if p == q { UnlinkKids(L, q, qs, i); } else { UnlinkOther(L, q, qs, i, p, K[p]); }
    }
    forall x | x in L
      ensures Placed(M, K2, x)
    {
      LinkedPlaced(L, K, x);
      UnlinkPlaced(L, K, q, i, x);
    }
    LinkedIf(L, K, M, K2);
  }

  lemma LinkedIf(L: Links, K: Forest, M: Links, K2: Forest)
    requires Linked(L, K) && K2.Keys == K.Keys
    requires forall p :: p in K2 ==> KidsAre(M, p, K2[p])
    requires forall x :: x in L ==> Placed(M, K2, x)
    requires M.Keys == L.Keys
    ensures Linked(M, K2)
  {
    hide KidsAre, Placed;
  }

  lemma LinkedPlaced(L: Links, K: Forest, x: Node)
    requires Linked(L, K) && x in L
    ensures Placed(L, K, x)
  {
    hide KidsAre, Placed;
  }

  /** The position of a node among the kids of its parent. */
  lemma InParentList(L: Links, K: Forest, n: Node) returns (i: nat)
    requires Linked(L, K) && n in L && L[n].parent != null
    ensures L[n].parent in K && i < |K[L[n].parent]| && K[L[n].parent][i] == n
  {
    LinkedPlaced(L, K, n);
    i :| 0 <= i < |K[L[n].parent]| && K[L[n].parent][i] == n;
  }

  lemma LinkedKids(L: Links, K: Forest, p: Node)
    requires Linked(L, K) && p in K
    ensures p in L && KidsAre(L, p, K[p]) && L[p].kids == At(K[p], 0) && Distinct(K[p])
    ensures forall i :: 0 <= i < |K[p]| ==> K[p][i] in L
  {
    assert KidsAre(L, p, K[p]);
  }

  lemma KidsByParent(L: Links, K: Forest, p: Node)
    requires Linked(L, K) && p in K
    ensures forall x :: x in K[p] <==> x in L && L[x].parent == p
  {
    assert KidsAre(L, p, K[p]);
    forall x | x in L && L[x].parent == p
      ensures x in K[p]
    {
      assert Placed(L, K, x);
    }
  }

  lemma LinkFirstKids(L: Links, n: Node, parent: Node, ks: seq<Node>)
    requires KidsAre(L, parent, ks) && n in L && n !in ks && n != parent
    ensures KidsAre(LinkFirstLinks(L, n, parent), parent, [n] + ks)
  {
    var t, M := [n] + ks, LinkFirstLinks(L, n, parent);
    forall j | 0 <= j < |t|
      ensures t[j] in M && M[t[j]].parent == parent && M[t[j]].prev == At(t, j - 1) && M[t[j]].next == At(t, j + 1)
    {
      if j > 0 {
        assert t[j] == ks[j - 1] && ks[j - 1] in L;
      }
    }
  }

  lemma LinkFirstOther(L: Links, n: Node, parent: Node, ks: seq<Node>, p: Node, ps: seq<Node>)
    requires KidsAre(L, parent, ks) && KidsAre(L, p, ps) && p != parent && n in L && L[n].parent == null
    ensures KidsAre(LinkFirstLinks(L, n, parent), p, ps)
  {
    var M := LinkFirstLinks(L, n, parent);
    forall j | 0 <= j < |ps|
      ensures ps[j] in M && M[ps[j]] == L[ps[j]].(kids := M[ps[j]].kids)
    {
      assert L[ps[j]].parent == p;
    }
  }

  lemma LinkFirstPlaced(L: Links, K: Forest, n: Node, parent: Node, x: Node)
    requires parent in K && KidsAre(L, parent, K[parent]) && n in L && Placed(L, K, x)
    ensures Placed(LinkFirstLinks(L, n, parent), K[parent := [n] + K[parent]], x)
  {
  }

  lemma LinkFirstParents(L: Links, n: Node, parent: Node)
    requires n in L && parent in L
    ensures ParentsOf(LinkFirstLinks(L, n, parent)) == ParentsOf(L)[n := parent]
  {
  }

  lemma LinkFirstLinked(L: Links, K: Forest, n: Node, parent: Node)
    requires Linked(L, K) && n in L && parent in L && L[n].parent == null && n != parent
    ensures Linked(LinkFirstLinks(L, n, parent), K[parent := [n] + K[parent]])
  {
    assert K.Keys == L.Keys;
    hide Linked, KidsAre, Placed, LinkFirstLinks, Distinct;
    var ks, M, K2 := K[parent], LinkFirstLinks(L, n, parent), K[parent := [n] + K[parent]];
    LinkedKids(L, K, parent);
    KidsByParent(L, K, parent);
    forall p | p in K2
      ensures KidsAre(M, p, K2[p])
    {
      LinkedKids(L, K, p);
      if p == parent { LinkFirstKids(L, n, parent, ks); } else { LinkFirstOther(L, n, parent, ks, p, K[p]); }
    }
    forall x | x in L
      ensures Placed(M, K2, x)
    {
      LinkedPlaced(L, K, x);
      LinkFirstPlaced(L, K, n, parent, x);
    }
    LinkedIf(L, K, M, K2);
  }

  // ------------------------------------------------------------- setParent

  /** The links after setParent. */
  ghost function MovedLinks(L: Links, n: Node, parent: Node?): Links
    requires n in L && (parent == null || parent in L)
  {
    if L[n].parent == parent then L
    else
      var L1 := if L[n].parent == null then L else UnlinkLinks(L, n);
      if parent == null then L1 else LinkFirstLinks(L1, n, parent)
  }

  /** The sibling lists after setParent, when `n` was under `q`. */
  ghost function MovedKids(K: Forest, n: Node, q: Node?, parent: Node?): Forest
    requires (q == null || q in K) && (parent == null || parent in K)
  {
    if q == parent then K
    else
      var K1 := if q == null then K else K[q := Without(K[q], n)];
      if parent == null then K1 else K1[parent := [n] + K1[parent]]
  }

  lemma MovedLinked(L: Links, K: Forest, n: Node, parent: Node?)
    requires Linked(L, K) && n in L && (parent == null || parent in L) && n != parent
    ensures L[n].parent == null || L[n].parent in K
    ensures Linked(MovedLinks(L, n, parent), MovedKids(K, n, L[n].parent, parent))
  {
    assert Placed(L, K, n);
    hide KidsAre, Placed;
    var q := L[n].parent;
    if q != parent {
      var L1, K1 := L, K;
      if q != null {
        UnlinkLinked(L, K, n);
        L1, K1 := UnlinkLinks(L, n), K[q := Without(K[q], n)];
      }
      if parent != null {
        LinkFirstLinked(L1, K1, n, parent);
      }
    }
  }

  lemma MovedParents(L: Links, n: Node, parent: Node?)
    requires n in L && (parent == null || parent in L)
    ensures ParentsOf(MovedLinks(L, n, parent)) == ParentsOf(L)[n := parent]
  {
    var P := ParentsOf(L);
    if L[n].parent == parent {
      assert P[n := parent] == P;
    } else if L[n].parent == null {
      LinkFirstParents(L, n, parent);
    } else {
      UnlinkParents(L, n);
      if parent != null {
        LinkFirstParents(UnlinkLinks(L, n), n, parent);
        var P1: Parents := P[n := null];
        assert P1[n := parent] == P[n := parent];
      }
    }
  }

  /** The first half of setParent. */
  method UnlinkNode(n: Node, ghost S: set<Node>)
    requires n in S && n.parent != null && n.parent in S
    requires (n.prev == null || n.prev in S) && (n.next == null || n.next in S)
    modifies S`parent, S`kids, S`prev, S`next
    ensures LinksOf(S) == UnlinkLinks(old(LinksOf(S)), n)
  {
    var q := n.parent;
    if n.prev == null {
      q.kids := n.next;
    } else {
      n.prev.next := n.next;
    }
    if n.next != null {
      n.next.prev := n.prev;
    }
    n.parent, n.next, n.prev := null, null, null;
  }

  /** The second half of setParent: always inserts at the head of the list. */
  method LinkNode(n: Node, parent: Node, ghost S: set<Node>)
    requires n in S && parent in S && parent.kids != n && (parent.kids == null || parent.kids in S)
    modifies S`parent, S`kids, S`prev, S`next
    ensures LinksOf(S) == LinkFirstLinks(old(LinksOf(S)), n, parent)
  {
    n.parent := parent;
    n.next := parent.kids;
    n.prev := null;
    if n.next != null {
      n.next.prev := n;
    }
    parent.kids := n;
  }

  /** setParent; the source panics when a node is made its own parent. */
  method SetParent(n: Node, parent: Node?, ghost K: Forest) returns (ghost K2: Forest)
    requires Linked(LinksOf(K.Keys), K) && n in K && n != parent && (parent == null || parent in K)
    modifies K.Keys`parent, K.Keys`kids, K.Keys`prev, K.Keys`next
    ensures old(n.parent) == null || old(n.parent) in K
    ensures K2 == MovedKids(K, n, old(n.parent), parent) && K2.Keys == K.Keys
    ensures Linked(LinksOf(K2.Keys), K2)
    ensures ParentsOf(LinksOf(K2.Keys)) == old(ParentsOf(LinksOf(K.Keys)))[n := parent]
  {
    hide Linked, KidsAre, Placed, UnlinkLinks, LinkFirstLinks, LinksOf, ParentsOf;
    ghost var S := K.Keys;
    ghost var L := LinksOf(S);
    LinkKeys(S);
    LinkFields(S, n);
    LinksInside(L, K, n);
    if parent != null {
      LinkFields(S, parent);
      LinksInside(L, K, parent);
      HeadIsKid(L, K, parent);
    }
    MovedLinked(L, K, n, parent);
    MovedParents(L, n, parent);
    K2 := MovedKids(K, n, n.parent, parent);
    if n.parent == parent {
      return;
    }
    if n.parent != null {
      var q := n.parent;
      UnlinkNode(n, S);
      UnlinkKeepsKids(L, n, parent);
    }
    if parent != null {
      LinkFields(S, parent);
      LinkNode(n, parent, S);
    }
    assert LinksOf(S) == MovedLinks(L, n, parent);
  }

  lemma HeadIsKid(L: Links, K: Forest, p: Node)
    requires Linked(L, K) && p in K
    ensures p in L && (L[p].kids != null ==> L[p].kids in L && L[L[p].kids].parent == p)
  {
    assert KidsAre(L, p, K[p]);
  }

  lemma UnlinkKeepsKids(L: Links, n: Node, p: Node?)
    requires n in L && p != L[n].parent
    ensures p != null && p in L ==> UnlinkLinks(L, n)[p].kids == L[p].kids
  {
  }

  // ----------------------------------------------------------- AdjustStream

  /** The sibling lists describe the links, and the links form a forest with these roots. */
  ghost predicate Forested(K: Forest, roots: set<Node>)
    reads K.Keys`parent, K.Keys`kids, K.Keys`prev, K.Keys`next
  {
    Linked(LinksOf(K.Keys), K) && IsForest(ParentsOf(LinksOf(K.Keys)), roots)
  }

  /** The same with one tree. */
  ghost predicate WellFormed(K: Forest, root: Node)
    reads K.Keys`parent, K.Keys`kids, K.Keys`prev, K.Keys`next
  {
    Forested(K, {root})
  }

  lemma AncestorStep(P: Parents, a: Node, x: Node)
    requires x in P
    ensures IsAncestor(P, a, x) <==> P[x] != null && (P[x] == a || IsAncestor(P, a, P[x]))
  {
    if IsAncestor(P, a, x) {
      var k: nat :| AncestorIn(P, a, x, k);
      assert P[x] == a || AncestorIn(P, a, P[x], k - 1);
    }
    if P[x] != null {
      AncestorOfParent(P, a, x);
    }
  }

  lemma AncestorOfParent(P: Parents, a: Node, x: Node)
    requires x in P && P[x] != null
    ensures P[x] == a || IsAncestor(P, a, P[x]) ==> IsAncestor(P, a, x)
  {
    if P[x] == a {
      assert AncestorIn(P, a, x, 1);
    } else if IsAncestor(P, a, P[x]) {
      var k: nat :| AncestorIn(P, a, P[x], k);
      assert AncestorIn(P, a, x, k + 1);
    }
  }

  lemma LinkFields(S: set<Node>, x: Node)
    requires x in S
    ensures x in LinksOf(S) && LinksOf(S)[x] == Link(x.parent, x.kids, x.prev, x.next)
    ensures x in ParentsOf(LinksOf(S)) && ParentsOf(LinksOf(S))[x] == x.parent
  {
  }

  lemma LinkKeys(S: set<Node>)
    ensures LinksOf(S).Keys == S && ParentsOf(LinksOf(S)).Keys == S
  {
  }

  lemma TreeClimbs(P: Parents, roots: set<Node>, x: Node) returns (k: nat)
    requires IsForest(P, roots) && x in P
    ensures Climbs(P, x, k)
  {
    assert Rooted(P, x);
    k :| Climbs(P, x, k);
  }

  lemma ClimbsUp(P: Parents, x: Node, k: nat)
    requires Climbs(P, x, k) && P[x] != null
    ensures P[x] in P && k > 0 && Climbs(P, P[x], k - 1)
  {
  }

  /** The walk up from `x` that looks for `n`; it ends because the tree has no cycle. */
  method DependsOn(x0: Node, n: Node, ghost roots: set<Node>, ghost K: Forest) returns (found: bool)
    requires Forested(K, roots) && x0 in K
    ensures found <==> IsAncestor(ParentsOf(LinksOf(K.Keys)), n, x0)
  {
    hide Linked, IsForest, IsAncestor, Climbs, LinksOf, ParentsOf;
    ghost var P, S := ParentsOf(LinksOf(K.Keys)), K.Keys;
    LinkKeys(S);
    ghost var k := TreeClimbs(P, roots, x0);
    LinkFields(S, x0);
    AncestorStep(P, n, x0);
    if x0.parent != null {
      ClimbsUp(P, x0, k);
      k := k - 1;
    }
    var x := x0.parent;
    while x != null
      invariant x != null ==> x in S && Climbs(P, x, k)
      invariant IsAncestor(P, n, x0) <==> x != null && (x == n || IsAncestor(P, n, x))
      decreases k, if x == null then 0 else 1
    {
      if x == n {
        return true;
      }
      LinkFields(S, x);
      AncestorStep(P, n, x);
      if P[x] != null {
        ClimbsUp(P, x, k);
        k := k - 1;
      }
      x := x.parent;
    }
    return false;
  }

  /** The list under the exclusive parent when the first `i` of its kids `ks` are dealt with. */
  ghost function Remaining(ks: seq<Node>, n: Node, i: nat): seq<Node>
    requires i <= |ks|
  {
    (if n in ks[..i] then [n] else []) + ks[i..]
  }

  /** The parents when the first `i` of the kids `ks` have been adopted by `n`. */
  ghost function Adopted(P: Parents, ks: seq<Node>, n: Node, i: nat): Parents
    requires i <= |ks|
  {
    map x | x in P :: if x in ks[..i] && x != n then n else P[x]
  }

  lemma RemainingStep(ks: seq<Node>, n: Node, i: nat)
    requires i < |ks| && Distinct(ks)
    ensures ks[i] == n ==> Remaining(ks, n, i + 1) == Remaining(ks, n, i)
    ensures ks[i] != n ==> Remaining(ks, n, i + 1) == Without(Remaining(ks, n, i), ks[i])
    ensures ks[i] in Remaining(ks, n, i)
  {
    assert ks[..i + 1] == ks[..i] + [ks[i]];
    assert ks[i..] == [ks[i]] + ks[i + 1..];
    if ks[i] == n {
      assert n !in ks[..i];
    } else if n in ks[..i] {
      assert [n] + ks[i..] == [n] + ([ks[i]] + ks[i + 1..]);
      assert ([n] + ks[i..])[1..] == ks[i..];
    }
  }

  lemma AdoptedStep(P: Parents, ks: seq<Node>, n: Node, i: nat)
    requires i < |ks| && ks[i] in P
    ensures Adopted(P, ks, n, i + 1) == if ks[i] == n then Adopted(P, ks, n, i) else Adopted(P, ks, n, i)[ks[i] := n]
  {
    assert ks[..i + 1] == ks[..i] + [ks[i]];
  }

  /** In the list that remains, the kid after the one being handled is the next of the original list. */
  lemma NextKid(L: Links, parent: Node, ks: seq<Node>, n: Node, i: nat)
    requires i < |ks| && Distinct(ks) && KidsAre(L, parent, Remaining(ks, n, i))
    ensures ks[i] in L && L[ks[i]].next == At(ks, i + 1) && L[ks[i]].parent == parent
  {
    var t := Remaining(ks, n, i);
    var j := |t| - |ks[i..]|;
    assert t[j] == ks[i];
    assert i + 1 < |ks| ==> t[j + 1] == ks[i + 1];
  }

  /** The state of the loop for an exclusive dependency, when `i` kids are dealt with. */
  ghost predicate Adopting(L: Links, K: Forest, P: Parents, ks: seq<Node>, n: Node, parent: Node, i: nat) {
    && i <= |ks| && parent in K
    && Linked(L, K)
    && K[parent] == Remaining(ks, n, i)
    && ParentsOf(L) == Adopted(P, ks, n, i)
  }

  lemma AdoptingStart(L: Links, K: Forest, n: Node, parent: Node)
    requires Linked(L, K) && parent in K
    ensures Adopting(L, K, ParentsOf(L), K[parent], n, parent, 0)
  {
    hide Linked;
    assert Remaining(K[parent], n, 0) == K[parent];
    assert Adopted(ParentsOf(L), K[parent], n, 0) == ParentsOf(L);
  }

  lemma AdoptingEnd(L: Links, K: Forest, P: Parents, ks: seq<Node>, n: Node, parent: Node)
    requires Adopting(L, K, P, ks, n, parent, |ks|)
    ensures Linked(L, K) && K[parent] == (if n in ks then [n] else []) && ParentsOf(L) == Adopted(P, ks, n, |ks|)
  {
    assert ks[..|ks|] == ks;
  }

  /** One turn of the loop. */
  method AdoptOne(k: Node, n: Node, parent: Node, ghost K: Forest, ghost P: Parents, ghost ks: seq<Node>, ghost i: nat)
    returns (next: Node?, ghost K2: Forest)
    requires n in K && parent in K && n != parent && i < |ks| && k == ks[i] && k in K && Distinct(ks) && k in P
    requires Adopting(LinksOf(K.Keys), K, P, ks, n, parent, i)
    modifies K.Keys`parent, K.Keys`kids, K.Keys`prev, K.Keys`next
    ensures K2.Keys == K.Keys && next == At(ks, i + 1)
    ensures Adopting(LinksOf(K.Keys), K2, P, ks, n, parent, i + 1)
  {
    ghost var S := K.Keys;
    LinkedKids(LinksOf(S), K, parent);
    NextKid(LinksOf(S), parent, ks, n, i);
    LinkFields(S, k);
    RemainingStep(ks, n, i);
    AdoptedStep(P, ks, n, i);
    hide Linked, KidsAre, MovedKids, LinksOf, ParentsOf, Remaining, Adopted, Distinct;
    next := k.next;
    K2 := K;
    if k != n {
      MovedAway(K, k, parent, n);
      K2 := SetParent(k, n, K);
    }
  }

  /** The loop for an exclusive dependency: every other kid of `parent` goes under `n`. */
  method AdoptSiblings(n: Node, parent: Node, ghost K: Forest) returns (ghost K2: Forest)
    requires Linked(LinksOf(K.Keys), K) && n in K && parent in K && n != parent
    modifies K.Keys`parent, K.Keys`kids, K.Keys`prev, K.Keys`next
    ensures K2.Keys == K.Keys && Linked(LinksOf(K2.Keys), K2)
    ensures K2[parent] == if n in K[parent] then [n] else []
    ensures ParentsOf(LinksOf(K2.Keys)) == Adopted(old(ParentsOf(LinksOf(K.Keys))), K[parent], n, |K[parent]|)
  {
    hide Linked, KidsAre, LinksOf, ParentsOf, Remaining, Adopted, Adopting, Distinct;
    ghost var S, P, ks, i := K.Keys, ParentsOf(LinksOf(K.Keys)), K[parent], 0;
    LinkedKids(LinksOf(S), K, parent);
    LinkFields(S, parent);
    LinkKeys(S);
    AdoptingStart(LinksOf(S), K, n, parent);
    K2 := K;
    var k := parent.kids;
    while k != null
      invariant i <= |ks| && k == At(ks, i) && K2.Keys == S
      invariant Adopting(LinksOf(S), K2, P, ks, n, parent, i)
      decreases |ks| - i
    {
      k, K2 := AdoptOne(k, n, parent, K2, P, ks, i);
      i := i + 1;
    }
    AdoptingEnd(LinksOf(S), K2, P, ks, n, parent);
  }

  lemma MovedAway(K: Forest, n: Node, q: Node, parent: Node)
    requires q in K && parent in K && q != parent
    ensures MovedKids(K, n, q, parent)[q] == Without(K[q], n)
  {
  }

  /** Section 5.3.3: a new parent that depends on `n` is first moved to n's parent. */
  method Lift(n: Node, parent: Node, ghost roots: set<Node>, ghost K: Forest) returns (ghost K2: Forest)
    requires Forested(K, roots) && n in K && parent in K && n !in roots && n != parent
    modifies K.Keys`parent, K.Keys`kids, K.Keys`prev, K.Keys`next
    ensures K2.Keys == K.Keys && Linked(LinksOf(K2.Keys), K2)
    ensures ParentsOf(LinksOf(K2.Keys)) == Lifted(old(ParentsOf(LinksOf(K.Keys))), n, parent)
  {
    hide Linked, LinksOf, ParentsOf, IsForest, IsAncestor, MovedKids;
    ghost var S, P := K.Keys, ParentsOf(LinksOf(K.Keys));
    LinkKeys(S);
    LinkFields(S, n);
    LinksInside(LinksOf(S), K, n);
    K2 := K;
    var cyclic := DependsOn(parent, n, roots, K);
    if cyclic {
      CyclicParent(P, roots, n, parent);
      K2 := SetParent(parent, n.parent, K2);
    }
  }

  /** The part of AdjustStream for two nodes: section 5.3.3. */
  method Adjust(n: Node, parent: Node, exclusive: bool, weight: nat, ghost roots: set<Node>, ghost K: Forest) returns (ghost K2: Forest)
    requires Forested(K, roots) && n in K && parent in K && n !in roots && n != parent
    modifies K.Keys`parent, K.Keys`kids, K.Keys`prev, K.Keys`next, n`weight
    ensures K2.Keys == K.Keys && Forested(K2, roots)
    ensures ParentsOf(LinksOf(K2.Keys)) == Reparented(old(ParentsOf(LinksOf(K.Keys))), n, parent, exclusive)
    ensures n.parent == parent && n.weight == weight
    ensures exclusive ==> K2[parent] == [n]
  {
    hide Linked, KidsAre, LinksOf, ParentsOf, IsForest, Lifted, Adopted, Reparented, MovedKids;
    ghost var S, P := K.Keys, ParentsOf(LinksOf(K.Keys));
    LinkKeys(S);
    ReparentedIsForest(P, roots, n, parent, exclusive);
    K2 := Lift(n, parent, roots, K);
    if exclusive {
      AdoptedIs(LinksOf(S), K2, n, parent);
      K2 := AdoptSiblings(n, parent, K2);
    }
    ReparentedSteps(P, n, parent, exclusive, ParentsOf(LinksOf(S)));
    LinkFields(S, n);
    PutFirst(LinksOf(S), K2, n, parent);
    K2 := SetParent(n, parent, K2);
    n.weight := weight;
    LinkFields(S, n);
  }

  /**
   Section 5.3.3 node by node: `n` goes under `parent`; a `parent` that depended on `n` first takes
   n's place; the other dependents of `parent` go under an exclusive `n`; all others stay.
   */
  lemma ReparentedIs(P: Parents, roots: set<Node>, n: Node, parent: Node, exclusive: bool)
    requires IsForest(P, roots) && n in P && parent in P && n != parent
    ensures var Q := Reparented(P, n, parent, exclusive);
      && Q.Keys == P.Keys && Q[n] == parent
      && Q[parent] == (if IsAncestor(P, n, parent) then P[n] else P[parent])
      && forall x <- P :: x != n && x != parent ==> Q[x] == if exclusive && P[x] == parent then n else P[x]
  {
    if P[parent] == parent { AncestorOfParent(P, parent, parent); NoCycle(P, roots, parent); }
    if IsAncestor(P, n, parent) { CyclicParent(P, roots, n, parent); }
    hide IsForest, IsAncestor;
  }

  lemma NoCycle(P: Parents, roots: set<Node>, x: Node)
    requires IsForest(P, roots) && x in P
    ensures !IsAncestor(P, x, x)
  {
    if IsAncestor(P, x, x) {
      var k: nat :| AncestorIn(P, x, x, k);
      AncestorIsHigher(P, roots, x, x, k);
    }
  }

  lemma PutFirst(L: Links, K: Forest, n: Node, parent: Node)
    requires Linked(L, K) && n in K && parent in K
    ensures (L[n].parent == null || L[n].parent in K)
    ensures MovedKids(K, n, L[n].parent, parent)[parent] == if n in K[parent] then K[parent] else [n] + K[parent]
  {
    KidsByParent(L, K, parent);
    LinksInside(L, K, n);
  }

  lemma ReparentedSteps(P: Parents, n: Node, parent: Node, exclusive: bool, P2: Parents)
    requires n in P && parent in P
    requires var P1 := Lifted(P, n, parent);
             P2 == if exclusive then map x | x in P1 :: if P1[x] == parent && x != n then n else P1[x] else P1
    ensures P2[n := parent] == Reparented(P, n, parent, exclusive)
  {
    var P1 := Lifted(P, n, parent);
    assert !exclusive ==> P2 == map x | x in P1 :: P1[x];
  }

  /** When the new parent depends on `n`, it is not n's own parent. */
  lemma CyclicParent(P: Parents, roots: set<Node>, n: Node, parent: Node)
    requires IsForest(P, roots) && n in P && IsAncestor(P, n, parent)
    ensures P[n] != parent
  {
    var k: nat :| AncestorIn(P, n, parent, k);
    AncestorIsHigher(P, roots, n, parent, k);
    if P[n] == parent {
      DepthOfKid(P, roots, n);
    }
  }

  lemma AdoptedIs(L: Links, K: Forest, n: Node, parent: Node)
    requires Linked(L, K) && parent in K
    ensures Adopted(ParentsOf(L), K[parent], n, |K[parent]|)
         == map x | x in ParentsOf(L) :: if ParentsOf(L)[x] == parent && x != n then n else ParentsOf(L)[x]
  {
    hide Linked, KidsAre;
    KidsByParent(L, K, parent);
    assert K[parent][..|K[parent]|] == K[parent];
  }

  lemma UnderRoot(P: Parents, roots: set<Node>, root: Node, n: Node)
    requires IsForest(P, roots) && root in roots && n in P && n !in roots
    ensures Reparented(P, n, root, false) == P[n := root]
  {
    assert Lifted(P, n, root) == P;
  }

  /** What the parents are after AdjustStream on a node of the tree. */
  ghost function Adjusted(P: Parents, root: Node, n: Node, nodes: map<nat, Node>, dep: nat, exclusive: bool): Parents
    requires n in P
  {
    if dep !in nodes then P[n := root]
    else if nodes[dep] == n then P
    else Reparented(P, n, nodes[dep], exclusive)
  }

  /**
   AdjustStream for a stream that has a node: a dependency that is not in the tree gives the
   default priority, a dependency on itself is ignored, any other one reparents.
   */
  method AdjustStream(nodes: map<nat, Node>, root: Node, streamID: nat, dep: nat, exclusive: bool, weight: nat,
                      ghost roots: set<Node>, ghost K: Forest)
    returns (ghost K2: Forest)
    requires Forested(K, roots) && root in roots
    requires forall id :: id in nodes ==> nodes[id] in K && nodes[id].id == id
    requires streamID in nodes && nodes[streamID] !in roots
    modifies K.Keys`parent, K.Keys`kids, K.Keys`prev, K.Keys`next, {nodes[streamID]}`weight
    ensures K2.Keys == K.Keys && Forested(K2, roots)
    ensures nodes[streamID] in old(ParentsOf(LinksOf(K.Keys)))
    ensures ParentsOf(LinksOf(K2.Keys))
         == Adjusted(old(ParentsOf(LinksOf(K.Keys))), root, nodes[streamID], nodes, dep, exclusive)
    ensures dep in nodes && dep != streamID && exclusive ==> K2[nodes[dep]] == [nodes[streamID]]
    ensures dep !in nodes || dep != streamID ==> nodes[streamID].parent == if dep in nodes then nodes[dep] else root
    ensures nodes[streamID].weight == if dep !in nodes then 15
                                      else if dep == streamID then old(nodes[streamID].weight) else weight
  {
    hide Linked, LinksOf, ParentsOf, IsForest, Reparented, MovedKids;
    var n := nodes[streamID];
    ghost var P := ParentsOf(LinksOf(K.Keys));
    LinkKeys(K.Keys);
    K2 := K;
    if dep !in nodes {
      RootOf(P, roots, root);
      UnderRoot(P, roots, root, n);
      ReparentedIsForest(P, roots, n, root, false);
      K2 := SetParent(n, root, K);
      LinkFields(K2.Keys, n);
      n.weight := DEFAULT_WEIGHT;
      return;
    }
    if n == nodes[dep] {
      return;
    }
    K2 := Adjust(n, nodes[dep], exclusive, weight, roots, K);
  }

  lemma RootOf(P: Parents, roots: set<Node>, root: Node)
    requires IsForest(P, roots) && root in roots
    ensures root in P && P[root] == null
  {
  }
}
