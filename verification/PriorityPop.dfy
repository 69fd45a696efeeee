/**
 The priority write scheduler's Pop: a walk over the priority tree that may reorder the kids
 of a node on its way, and the removal of a node from the tree.
 */
module PriorityPop {
  import opened Sequences
  import opened Basics
  import opened FlowControl
  import opened Int32
  import opened PriorityTree
  import opened WriteQueue

  const MIN_THROTTLE := 1024

  // ------------------------------------------------------- depth and subtree

  /** `D` gives every node its distance from the root of its tree. */
  ghost predicate Leveled(P: Parents, D: map<Node, nat>) {
    && D.Keys == P.Keys
    && forall x :: x in P && P[x] != null ==> P[x] in P && D[x] == D[P[x]] + 1
  }

  lemma TreeLeveled(P: Parents, root: Node) returns (D: map<Node, nat>)
    requires IsTree(P, root)
    ensures Leveled(P, D) && D.Keys == P.Keys
  {
    D := map x | x in P :: Depth(P, {root}, x);
    forall x | x in P && P[x] != null
      ensures P[x] in P && D[x] == D[P[x]] + 1
    {
      DepthOfKid(P, {root}, x);
    }
  }

  /** Levels are bounded: a finite set of nodes has a deepest one. */
  lemma {:induction false} MaxLevel(D: map<Node, nat>, S: set<Node>) returns (top: nat)
    requires S <= D.Keys
    ensures forall x :: x in S ==> D[x] <= top
    decreases S
  {
    if S == {} {
      top := 0;
    } else {
      var x :| x in S;
      top := MaxLevel(D, S - {x});
      assert S == (S - {x}) + {x};
      top := if top < D[x] then D[x] else top;
    }
  }

  ghost predicate Below(P: Parents, x: Node, n: Node) {
    x == n || IsAncestor(P, n, x)
  }

  /** What is below a node is the node or below one of its kids. */
  lemma {:induction false} BelowViaKid(P: Parents, n: Node, x: Node, k: nat) returns (c: Node)
    requires AncestorIn(P, n, x, k)
    ensures c in P && P[c] == n && Below(P, x, c)
    decreases k
  {
    if P[x] == n {
      c := x;
    } else {
      c := BelowViaKid(P, n, P[x], k - 1);
      AncestorOfParent(P, c, x);
    }
  }

  lemma {:induction false} TreeBelowRoot(P: Parents, root: Node, x: Node, k: nat)
    requires IsTree(P, root) && Climbs(P, x, k)
    ensures Below(P, x, root)
    decreases k
  {
    if x != root {
      TreeBelowRoot(P, root, P[x], k - 1);
      AncestorOfParent(P, root, x);
    }
  }

  lemma {:induction false} LevelAbove(P: Parents, D: map<Node, nat>, a: Node, x: Node, k: nat)
    requires Leveled(P, D) && AncestorIn(P, a, x, k)
    ensures a in P && D[a] < D[x]
    decreases k
  {
    if P[x] != a {
      LevelAbove(P, D, a, P[x], k - 1);
    }
  }

  /** On the way up from `x`, whatever lies below `n` comes before the kid of `n` on that way, or is it. */
  lemma {:induction false} BetweenKid(P: Parents, D: map<Node, nat>, n: Node, c: Node, a: Node, x: Node, k: nat)
    requires Leveled(P, D) && c in P && P[c] == n && Below(P, x, c)
    requires AncestorIn(P, a, x, k) && IsAncestor(P, n, a)
    ensures Below(P, a, c)
    decreases k
  {
    var j: nat :| AncestorIn(P, n, a, j);
    LevelAbove(P, D, n, a, j);
    if x == c {
      LevelAbove(P, D, a, x, k);
    } else {
      AncestorStep(P, c, x);
      if P[x] != a {
        BetweenKid(P, D, n, c, a, P[x], k - 1);
      }
    }
  }

  // ------------------------------------------------------- reordering kids

  /** sort.Sort with a Less that is no strict order: some permutation. */
  method SomeOrder(s: seq<Node>) returns (t: seq<Node>)
    ensures |t| == |s| && multiset(t) == multiset(s)
  {
    t := s;
    var swaps: nat :| true;
    while swaps > 0 && t != []
      invariant |t| == |s| && multiset(t) == multiset(s)
      decreases swaps
    {
      var i, j :| 0 <= i < |t| && 0 <= j < |t|;
      t := t[i := t[j]][j := t[i]];
      swaps := swaps - 1;
    }
  }

  ghost function Detached(P: Parents, out: seq<Node>): Parents {
    map x | x in P :: if x in out then null else P[x]
  }

  /** Takes the first kid off `n`. */
  method DetachFirst(n: Node, ghost K: Forest, ghost P: Parents, ghost out: seq<Node>) returns (k: Node, ghost K2: Forest)
    requires Linked(LinksOf(K.Keys), K) && n in K && n.kids != null
    requires P.Keys == K.Keys && ParentsOf(LinksOf(K.Keys)) == Detached(P, out)
    modifies K.Keys`parent, K.Keys`kids, K.Keys`prev, K.Keys`next
    ensures K[n] != [] && k == K[n][0] && K2 == K[n := K[n][1..]] && Linked(LinksOf(K.Keys), K2)
    ensures ParentsOf(LinksOf(K.Keys)) == Detached(P, out + [k])
    ensures n.kids == At(K[n], 1)
  {
    hide Linked, KidsAre, LinksOf, ParentsOf, Detached, MovedKids;
    ghost var S := K.Keys;
    k := n.kids;
    LinkFields(S, n);
    LinkKeys(S);
    FirstKid(LinksOf(S), K, n);
    LinkFields(S, k);
    DetachedStep(P, out, k);
    K2 := SetParent(k, null, K);
    LinkFields(S, n);
    LinkedKids(LinksOf(S), K2, n);
  }

  /** Takes all kids off `n`, in order. */
  method DetachKids(n: Node, ghost K: Forest) returns (tmp: seq<Node>, ghost K2: Forest)
    requires Linked(LinksOf(K.Keys), K) && n in K
    modifies K.Keys`parent, K.Keys`kids, K.Keys`prev, K.Keys`next
    ensures tmp == K[n] && K2 == K[n := []] && K2.Keys == K.Keys && Linked(LinksOf(K.Keys), K2)
    ensures ParentsOf(LinksOf(K.Keys)) == Detached(old(ParentsOf(LinksOf(K.Keys))), tmp)
  {
    hide Linked, KidsAre, LinksOf, ParentsOf, Detached, Distinct;
    ghost var S, P, ks := K.Keys, ParentsOf(LinksOf(K.Keys)), K[n];
    DetachedNone(P);
    K2 := K;
    tmp := [];
    LinkKeys(S);
    LinkFields(S, n);
    LinkedKids(LinksOf(S), K2, n);
    while n.kids != null
      invariant |tmp| <= |ks| && tmp == ks[..|tmp|]
      invariant K2 == K[n := ks[|tmp|..]] && K2.Keys == S
      invariant Linked(LinksOf(S), K2) && n.kids == At(ks, |tmp|)
      invariant ParentsOf(LinksOf(S)) == Detached(P, tmp)
      decreases |ks| - |tmp|
    {
      ghost var i := |tmp|;
      var k;
      k, K2 := DetachFirst(n, K2, P, tmp);
      assert ks[i..][1..] == ks[i + 1..];
      tmp := tmp + [k];
    }
  }

  lemma DetachedNone(P: Parents)
    ensures Detached(P, []) == P
  {
  }

  lemma DetachedStep(P: Parents, out: seq<Node>, k: Node)
    requires k in P
    ensures Detached(P, out)[k := null] == Detached(P, out + [k])
  {
  }

  lemma FirstKid(L: Links, K: Forest, n: Node)
    requires Linked(L, K) && n in K && n in L && L[n].kids != null
    ensures K[n] != [] && L[n].kids == K[n][0] && L[n].kids in L && L[L[n].kids].parent == n
    ensures MovedKids(K, K[n][0], n, null) == K[n := K[n][1..]]
  {
    assert KidsAre(L, n, K[n]);
  }

  ghost function Attached(P: Parents, kids: seq<Node>, n: Node): Parents {
    map x | x in P :: if x in kids then n else P[x]
  }

  lemma AttachedNone(P: Parents, n: Node)
    ensures Attached(P, [], n) == P
  {
  }

  lemma AttachedStep(P: Parents, kids: seq<Node>, n: Node, k: Node)
    requires k in P
    ensures Attached(P, kids, n)[k := n] == Attached(P, [k] + kids, n)
  {
  }

  /** A node without parent goes first. */
  lemma PutLoose(K: Forest, k: Node, n: Node)
    requires n in K
    ensures MovedKids(K, k, null, n) == K[n := [k] + K[n]]
  {
  }

  /** Puts a loose node first under `n`. */
  method AttachFirst(n: Node, k: Node, ghost K: Forest, ghost P: Parents, ghost kids: seq<Node>) returns (ghost K2: Forest)
    requires Linked(LinksOf(K.Keys), K) && n in K && k in K && k != n && k in P && P[k] == null && k !in kids
    requires ParentsOf(LinksOf(K.Keys)) == Attached(P, kids, n)
    modifies K.Keys`parent, K.Keys`kids, K.Keys`prev, K.Keys`next
    ensures K2 == K[n := [k] + K[n]] && K2.Keys == K.Keys && Linked(LinksOf(K.Keys), K2)
    ensures ParentsOf(LinksOf(K.Keys)) == Attached(P, [k] + kids, n)
  {
    assert Attached(P, kids, n)[k] == null;
    hide Linked, KidsAre, LinksOf, ParentsOf, MovedKids, Attached;
    LinkFields(K.Keys, k);
    PutLoose(K, k, n);
    AttachedStep(P, kids, n, k);
    K2 := SetParent(k, n, K);
  }

  /** Puts the nodes of `tmp` under `n`, last one first, so that the list has their order. */
  method AttachKids(n: Node, tmp: seq<Node>, ghost K: Forest, ghost P: Parents) returns (ghost K2: Forest)
    requires Linked(LinksOf(K.Keys), K) && n in K && K[n] == [] && n !in tmp && Distinct(tmp)
    requires P == ParentsOf(LinksOf(K.Keys))
    requires forall i :: 0 <= i < |tmp| ==> tmp[i] in K && tmp[i] in P && P[tmp[i]] == null
    modifies K.Keys`parent, K.Keys`kids, K.Keys`prev, K.Keys`next
    ensures K2 == K[n := tmp] && K2.Keys == K.Keys && Linked(LinksOf(K.Keys), K2)
    ensures ParentsOf(LinksOf(K.Keys)) == Attached(P, tmp, n)
  {
    hide Linked, KidsAre, LinksOf, ParentsOf, Attached;
    AttachedNone(P, n);
    ghost var S := K.Keys;
    K2 := K;
    var i := |tmp|;
    assert tmp[|tmp|..] == [] && K[n := []] == K;
    while i > 0
      invariant 0 <= i <= |tmp|
      invariant K2 == K[n := tmp[i..]] && K2.Keys == S
      invariant Linked(LinksOf(S), K2)
      invariant ParentsOf(LinksOf(S)) == Attached(P, tmp[i..], n)
    {
      i := i - 1;
      assert tmp[i] !in tmp[i + 1..];
      K2 := AttachFirst(n, tmp[i], K2, P, tmp[i + 1..]);
      assert [tmp[i]] + tmp[i + 1..] == tmp[i..];
    }
    assert tmp[0..] == tmp;
  }

  /** Detaching the kids and attaching them again in another order keeps every parent. */
  lemma ReattachedParents(P: Parents, n: Node, ks: seq<Node>, tmp: seq<Node>)
    requires forall x :: x in ks <==> x in P && P[x] == n
    requires forall x :: x in tmp <==> x in ks
    ensures Attached(Detached(P, ks), tmp, n) == P
  {
  }

  lemma SameMembers(ks: seq<Node>, tmp: seq<Node>)
    requires multiset(tmp) == multiset(ks) && Distinct(ks)
    ensures Distinct(tmp) && forall x :: x in tmp <==> x in ks
  {
    forall x
      ensures x in tmp <==> x in ks
    {
      assert x in multiset(tmp) <==> x in multiset(ks);
    }
    DistinctCount(ks);
    CountDistinct(tmp);
  }

  lemma CountDistinct(s: seq<Node>)
    requires forall x :: multiset(s)[x] <= 1
    ensures Distinct(s)
  {
    forall i, j | 0 <= i < j < |s|
      ensures s[i] != s[j]
    {
      var a, b, c := s[..i], s[i + 1..j], s[j + 1..];
      assert s == a + [s[i]] + b + [s[j]] + c;
      assert multiset(s) == multiset(a) + multiset{s[i]} + multiset(b) + multiset{s[j]} + multiset(c);
      assert multiset(s)[s[i]] <= 1;
    }
  }

  lemma {:induction false} DistinctCount(ks: seq<Node>)
    requires Distinct(ks)
    ensures forall x :: multiset(ks)[x] <= 1
  {
    if ks != [] {
      DistinctCount(ks[1..]);
      assert ks == [ks[0]] + ks[1..];
      assert ks[0] !in ks[1..];
    }
  }

  /** The uncommon case of the walk: the kids of `n` get some other order, no parent changes. */
  method ReorderKids(n: Node, ghost K: Forest) returns (ghost K2: Forest)
    requires Linked(LinksOf(K.Keys), K) && n in K && n !in K[n]
    modifies K.Keys`parent, K.Keys`kids, K.Keys`prev, K.Keys`next
    ensures K2.Keys == K.Keys && Linked(LinksOf(K.Keys), K2)
    ensures ParentsOf(LinksOf(K.Keys)) == old(ParentsOf(LinksOf(K.Keys)))
    ensures forall x :: x in K && x != n ==> K2[x] == K[x]
    ensures multiset(K2[n]) == multiset(K[n])
  {
    hide Linked, KidsAre, LinksOf, ParentsOf, Distinct, Attached;
    ghost var S, P, ks := K.Keys, ParentsOf(LinksOf(K.Keys)), K[n];
    LinkKeys(S);
    LinkedKids(LinksOf(S), K, n);
    KidsOfParents(LinksOf(S), K, n);
    var tmp;
    tmp, K2 := DetachKids(n, K);
    tmp := SomeOrder(tmp);
    SameMembers(ks, tmp);
    ReattachedParents(P, n, ks, tmp);
    K2 := AttachKids(n, tmp, K2, Detached(P, ks));
  }

  lemma KidsOfParents(L: Links, K: Forest, n: Node)
    requires Linked(L, K) && n in K
    ensures forall x :: x in K[n] <==> x in ParentsOf(L) && ParentsOf(L)[x] == n
  {
    KidsByParent(L, K, n);
  }

  // ------------------------------------------------------------------- walk

  type Pending = map<Node, seq<WriteReq>>

  ghost function QueuesOf(S: set<Node>): Pending
    reads S`q
  {
    map x | x in S :: x.q
  }

  ghost predicate AllReady(Q: Pending, w: Windows) {
    forall x, i :: x in Q && 0 <= i < |Q[x]| ==> Ready(Q[x][i], w)
  }

  /** Nothing waits, or the first frame is DATA and its window or the connection's is used up. */
  ghost predicate Stuck(q: seq<WriteReq>, w: Windows) {
    q == [] || (q[0].Metered() && q[0].stream.Some? && q[0].stream.value in w.stream && Sendable(w, q[0].stream.value) <= 0)
  }

  /** `wr` was consumed under `limit` from the front of `q`, leaving `q2` and windows `w2`. */
  ghost predicate TookUnder(limit: int, q: seq<WriteReq>, w: Windows, wr: WriteReq, q2: seq<WriteReq>, w2: Windows) {
    && q != [] && Ready(q[0], w) && MIN_THROTTLE <= limit <= MAX_INT32
    && match Consume(q[0], limit, w) {
         case Blocked => false
         case Whole(w') => wr == q[0] && q2 == q[1..] && w2 == w'
         case Split(piece, rest, w') => wr == piece && q2 == [rest] + q[1..] && w2 == w'
       }
  }

  lemma BlockedIsStuck(q: seq<WriteReq>, w: Windows, limit: int)
    requires MIN_THROTTLE <= limit && w.maxFrame > 0
    requires forall i :: 0 <= i < |q| ==> Ready(q[i], w)
    ensures q == [] || Consume(q[0], limit, w).Blocked? <==> Stuck(q, w)
  {
  }

  ghost function BytesOf(S: set<Node>): map<Node, int>
    reads S`subtreeBytes
  {
    map x | x in S :: x.subtreeBytes
  }

  /** The bytes of each subtree once `b` more were sent from `from`. */
  ghost function Charged(P: Parents, sub: map<Node, int>, from: Node, b: int): map<Node, int> {
    map x | x in sub :: sub[x] + if Below(P, from, x) then b else 0
  }

  /** The same while the nodes from `rest` upwards are still to be charged. */
  ghost function ChargedBelow(P: Parents, sub: map<Node, int>, from: Node, b: int, rest: Node?): map<Node, int> {
    map x | x in sub :: sub[x] + if Below(P, from, x) && !(rest != null && Below(P, rest, x)) then b else 0
  }

  lemma ChargeNone(P: Parents, sub: map<Node, int>, from: Node, b: int)
    ensures ChargedBelow(P, sub, from, b, from) == sub && ChargedBelow(P, sub, from, b, null) == Charged(P, sub, from, b)
  {
  }

  lemma ChargeOne(P: Parents, D: map<Node, nat>, sub: map<Node, int>, from: Node, b: int, x: Node)
    requires Leveled(P, D) && x in P && x in sub && Below(P, from, x)
    ensures var c := ChargedBelow(P, sub, from, b, x);
      ChargedBelow(P, sub, from, b, P[x]) == c[x := c[x] + b] && (P[x] != null ==> Below(P, from, P[x]))
  {
    if P[x] != null { BelowKid(P, P[x], x, from); }
    forall y | y in sub ensures P[x] != null && Below(P, P[x], y) <==> Below(P, x, y) && y != x {
      AncestorStep(P, y, x);
      NotAboveItself(P, D, x, x);
    }
  }

  lemma BytesField(S: set<Node>, x: Node)
    requires x in S
    ensures BytesOf(S).Keys == S && BytesOf(S)[x] == x.subtreeBytes
  {
  }

  lemma LevelUp(P: Parents, D: map<Node, nat>, x: Node)
    requires Leveled(P, D) && x in P
    ensures D.Keys == P.Keys && (P[x] != null ==> P[x] in P && D[P[x]] < D[x])
  {
  }

  /** Charges one node on the way up and gives the next one. */
  method ChargeAt(x: Node, b: int, ghost n: Node, ghost S: set<Node>, ghost P: Parents, ghost D: map<Node, nat>, ghost sub: map<Node, int>)
    returns (up: Node?)
    requires x in S && P == ParentsOf(LinksOf(S)) && Leveled(P, D) && sub.Keys == S
    requires Below(P, n, x) && BytesOf(S) == ChargedBelow(P, sub, n, b, x)
    modifies x`subtreeBytes
    ensures BytesOf(S) == ChargedBelow(P, sub, n, b, up) && ParentsOf(LinksOf(S)) == P
    ensures x in D && (up != null ==> up in S && up in D && Below(P, n, up) && D[up] < D[x])
  {
    hide LinksOf, ParentsOf, ChargedBelow, Below, Leveled;
    LinkKeys(S);
    LinkFields(S, x);
    BytesField(S, x);
    ChargeOne(P, D, sub, n, b, x);
    LevelUp(P, D, x);
    x.subtreeBytes := x.subtreeBytes + b;
    up := x.parent;
  }

  /** addBytes: counts the bytes at the node and, for the subtrees, at it and all its ancestors. */
  method AddBytes(n: Node, b: int, ghost S: set<Node>, ghost P: Parents, ghost D: map<Node, nat>)
    requires n in S && P == ParentsOf(LinksOf(S)) && Leveled(P, D)
    modifies n`bytes, S`subtreeBytes
    ensures n.bytes == old(n.bytes) + b && BytesOf(S) == Charged(P, old(BytesOf(S)), n, b)
  {
    hide LinksOf, ParentsOf, BytesOf, Charged, Leveled;
    n.bytes := n.bytes + b;
    ChargeUp(n, b, S, P, D);
  }

  method ChargeUp(n: Node, b: int, ghost S: set<Node>, ghost P: Parents, ghost D: map<Node, nat>)
    requires n in S && P == ParentsOf(LinksOf(S)) && Leveled(P, D)
    modifies S`subtreeBytes
    ensures BytesOf(S) == Charged(P, old(BytesOf(S)), n, b)
  {
    hide LinksOf, ParentsOf, BytesOf, Charged, ChargedBelow, Leveled;
    ghost var sub := BytesOf(S);
    LinkKeys(S);
    BytesField(S, n);
    ChargeNone(P, sub, n, b);
    LevelUp(P, D, n);
    var x: Node? := n;
    while x != null
      invariant x != null ==> x in S && x in D && Below(P, n, x)
      invariant ParentsOf(LinksOf(S)) == P && BytesOf(S) == ChargedBelow(P, sub, n, b, x)
      decreases if x == null then 0 else D[x] + 1
    {
      x := ChargeAt(x, b, n, S, P, D, sub);
    }
  }

  /** What the walk needs to know about the `j`-th kid of `n`. */
  lemma KidAt(S: set<Node>, K: Forest, P: Parents, D: map<Node, nat>, top: nat, n: Node, j: nat)
    requires TreeAt(S, K, P, D, top) && n in K && j < |K[n]|
    ensures var k := K[n][j]; k in S && k in P && P[k] == n && k in D && n in D && D[k] == D[n] + 1 <= top
    ensures K[n][j].next == At(K[n], j + 1)
  {
    hide LinksOf, ParentsOf, Linked;
    LinkKeys(S);
    LinkedKids(LinksOf(S), K, n);
    KidsOfParents(LinksOf(S), K, n);
    LinkFields(S, K[n][j]);
  }

  lemma HeadAt(S: set<Node>, K: Forest, P: Parents, D: map<Node, nat>, top: nat, n: Node)
    requires TreeAt(S, K, P, D, top) && n in K
    ensures n.kids == At(K[n], 0) && P.Keys == S && n in P && n in D && D[n] <= top && n !in K[n] && Leveled(P, D)
    ensures forall x :: x in K[n] <==> x in P && P[x] == n
  {
    hide LinksOf, ParentsOf, Linked;
    LinkKeys(S);
    LinkFields(S, n);
    LinkedKids(LinksOf(S), K, n);
    KidsOfParents(LinksOf(S), K, n);
  }

  /** Whether two kids differ in weight. */
  method NeedSort(n: Node, ghost S: set<Node>, ghost K: Forest, ghost P: Parents, ghost D: map<Node, nat>, ghost top: nat)
    returns (need: bool)
    requires TreeAt(S, K, P, D, top) && n in K && n.kids != null
    ensures need <==> exists i :: 0 <= i < |K[n]| && K[n][i].weight != n.kids.weight
  {
    hide TreeAt;
    ghost var ks, j := K[n], 1;
    HeadAt(S, K, P, D, top, n);
    KidAt(S, K, P, D, top, n, 0);
    var w := n.kids.weight;
    var k := n.kids.next;
    while k != null
      invariant 1 <= j <= |ks| && k == At(ks, j)
      invariant forall i :: 0 <= i < j ==> ks[i].weight == w
      decreases |ks| - j
    {
      if k.weight != w {
        return true;
      }
      KidAt(S, K, P, D, top, n, j);
      k := k.next;
      j := j + 1;
    }
    return false;
  }

  /** Sorts the kids of `n` when they differ in weight. */
  method SortKids(n: Node, ghost K: Forest, ghost P: Parents, ghost D: map<Node, nat>, ghost top: nat)
    returns (ghost K2: Forest)
    requires TreeAt(K.Keys, K, P, D, top) && n in K && n.kids != null
    modifies K.Keys`parent, K.Keys`kids, K.Keys`prev, K.Keys`next
    ensures K2.Keys == K.Keys && TreeAt(K.Keys, K2, P, D, top)
    ensures forall x :: x in K && x != n ==> K2[x] == K[x]
  {
    hide Linked, LinksOf, ParentsOf, Leveled;
    HeadAt(K.Keys, K, P, D, top, n);
    var need := NeedSort(n, K.Keys, K, P, D, top);
    K2 := K;
    if need {
      K2 := ReorderKids(n, K);
    }
  }

  /** A queue from which something was consumed was not stuck. */
  lemma TookNotStuck(limit: int, q: seq<WriteReq>, w: Windows, wr: WriteReq, q2: seq<WriteReq>, w2: Windows)
    requires TookUnder(limit, q, w, wr, q2, w2)
    ensures !Stuck(q, w)
  {
  }

  /** What a walk starts from: queues, windows, throttle limit, open streams and the bytes of each subtree. */
  datatype Scene = Scene(Q: Pending, w: Windows, limit: int, open: set<Node>, sub: map<Node, int>)

  ghost function OpenOf(S: set<Node>): set<Node>
    reads S`state
  {
    set x | x in S && x.id != 0 && x.state == Open
  }

  /** A stream that `x` depends on is still open; the root is none. */
  ghost predicate AboveOpen(P: Parents, open: set<Node>, x: Node) {
    exists a <- open :: IsAncestor(P, a, x)
  }

  lemma KidAboveOpen(P: Parents, open: set<Node>, n: Node, c: Node)
    requires c in P && P[c] == n
    ensures AboveOpen(P, open, c) <==> AboveOpen(P, open, n) || n in open
  {
    forall a: Node ensures IsAncestor(P, a, c) <==> a == n || IsAncestor(P, a, n) { AncestorStep(P, a, c); }
  }

  lemma RootNotAboveOpen(P: Parents, root: Node, open: set<Node>)
    requires root in P && P[root] == null
    ensures !AboveOpen(P, open, root)
  {
    forall a: Node ensures !IsAncestor(P, a, root) { AncestorStep(P, a, root); }
  }

  /** How much may be sent from `x`: throttled below an open stream. */
  ghost function LimitFor(P: Parents, B: Scene, x: Node): int {
    if AboveOpen(P, B.open, x) then B.limit else MAX_INT32
  }

  lemma StuckEverywhere(P: Parents, root: Node, Q: Pending, w: Windows)
    requires IsTree(P, root) && Q.Keys == P.Keys
    requires forall x :: x in P && x in Q && Below(P, x, root) ==> Stuck(Q[x], w)
    ensures forall x :: x in P ==> Stuck(Q[x], w)
  {
    forall x | x in P
      ensures Stuck(Q[x], w)
    {
      var k := TreeClimbs(P, {root}, x);
      TreeBelowRoot(P, root, x, k);
    }
  }

  lemma DependencyOfRoot(P: Parents, root: Node, from: Node, Q: Pending, w: Windows)
    requires IsTree(P, root) && Q.Keys == P.Keys && DependencyStuck(P, root, from, Q, w)
    ensures forall a :: a in P && IsAncestor(P, a, from) ==> Stuck(Q[a], w)
  {
    forall a | a in P && IsAncestor(P, a, from)
      ensures Stuck(Q[a], w)
    {
      var k := TreeClimbs(P, {root}, a);
      TreeBelowRoot(P, root, a, k);
    }
  }

  lemma MaxFramePositive(sc: SendConn)
    requires sc.Valid()
    ensures sc.View().maxFrame > 0
  {
  }

  lemma QueueField(S: set<Node>, x: Node)
    requires x in S
    ensures QueuesOf(S).Keys == S && QueuesOf(S)[x] == x.q
  {
  }

  /** Sibling lists, parents and levels of the nodes `S`. */
  ghost predicate TreeAt(S: set<Node>, K: Forest, P: Parents, D: map<Node, nat>, top: nat)
    reads S`parent, S`kids, S`prev, S`next
  {
    && K.Keys == S && Linked(LinksOf(S), K) && ParentsOf(LinksOf(S)) == P
    && Leveled(P, D) && forall x :: x in D ==> D[x] <= top
  }

  lemma TreeParts(S: set<Node>, K: Forest, P: Parents, D: map<Node, nat>, top: nat)
    requires TreeAt(S, K, P, D, top)
    ensures ParentsOf(LinksOf(S)) == P && Leveled(P, D)
  {
  }

  /** Everything below one of the first `j` of `ks` is stuck. */
  ghost predicate StuckBelow(P: Parents, ks: seq<Node>, j: int, Q: Pending, w: Windows) {
    forall x, i :: x in P && x in Q && 0 <= i < j && i < |ks| && Below(P, x, ks[i]) ==> Stuck(Q[x], w)
  }

  lemma StuckBelowNone(P: Parents, ks: seq<Node>, Q: Pending, w: Windows)
    ensures StuckBelow(P, ks, 0, Q, w)
  {
  }

  lemma StuckKids(P: Parents, n: Node, ks: seq<Node>, Q: Pending, w: Windows)
    requires n in P && Q.Keys == P.Keys && Stuck(Q[n], w)
    requires forall x :: x in ks <==> x in P && P[x] == n
    requires StuckBelow(P, ks, |ks|, Q, w)
    ensures forall x :: x in P && Below(P, x, n) ==> Stuck(Q[x], w)
  {
    forall x | x in P && Below(P, x, n)
      ensures Stuck(Q[x], w)
    {
      if x != n {
        var k: nat :| AncestorIn(P, n, x, k);
        var c := BelowViaKid(P, n, x, k);
        var i :| 0 <= i < |ks| && ks[i] == c;
        assert Below(P, x, ks[i]);
      }
    }
  }

  /** Every node below `n` that `from` depends on is stuck (section 5.3.1 of RFC 7540). */
  ghost predicate DependencyStuck(P: Parents, n: Node, from: Node, Q: Pending, w: Windows) {
    forall a :: a in P && a in Q && IsAncestor(P, a, from) && Below(P, a, n) ==> Stuck(Q[a], w)
  }

  lemma NothingAbove(P: Parents, D: map<Node, nat>, n: Node, Q: Pending, w: Windows)
    requires Leveled(P, D)
    ensures DependencyStuck(P, n, n, Q, w)
  {
    forall a | a in P && a in Q
      ensures IsAncestor(P, a, n) && Below(P, a, n) ==> Stuck(Q[a], w)
    {
      NotAboveItself(P, D, a, n);
    }
  }

  lemma NotAboveItself(P: Parents, D: map<Node, nat>, a: Node, n: Node)
    requires Leveled(P, D)
    ensures !(IsAncestor(P, a, n) && Below(P, a, n))
  {
    if IsAncestor(P, a, n) && Below(P, a, n) {
      var k: nat :| AncestorIn(P, a, n, k);
      LevelAbove(P, D, a, n, k);
      if a != n {
        var j: nat :| AncestorIn(P, n, a, j);
        LevelAbove(P, D, n, a, j);
      }
    }
  }

  lemma DependencyUp(P: Parents, D: map<Node, nat>, n: Node, c: Node, from: Node, Q: Pending, w: Windows)
    requires Leveled(P, D) && c in P && P[c] == n && Below(P, from, c) && n in Q && Stuck(Q[n], w)
    requires DependencyStuck(P, c, from, Q, w)
    ensures DependencyStuck(P, n, from, Q, w)
  {
    forall a | a in P && a in Q && IsAncestor(P, a, from) && Below(P, a, n)
      ensures Stuck(Q[a], w)
    {
      if a != n {
        var k: nat :| AncestorIn(P, a, from, k);
        BetweenKid(P, D, n, c, a, from, k);
      }
    }
  }

  lemma BelowKid(P: Parents, n: Node, c: Node, x: Node)
    requires c in P && P[c] == n && Below(P, x, c) && x in P
    ensures Below(P, x, n)
  {
    if x == c {
      assert AncestorIn(P, n, x, 1);
    } else {
      var k: nat :| AncestorIn(P, c, x, k);
      AncestorChain(P, n, c, x, k);
    }
  }

  lemma {:induction false} AncestorChain(P: Parents, a: Node, c: Node, x: Node, k: nat)
    requires c in P && P[c] == a && AncestorIn(P, c, x, k)
    ensures IsAncestor(P, a, x)
    decreases k
  {
    if P[x] == c {
      assert AncestorIn(P, a, c, 1);
    } else {
      AncestorChain(P, a, c, P[x], k - 1);
    }
    AncestorOfParent(P, a, x);
  }

  class PriorityWriteScheduler {
    const sc: SendConn
    const enableWriteThrottle: bool
    var writeThrottleLimit: int

    constructor (sc: SendConn, throttle: bool)
      ensures this.sc == sc && enableWriteThrottle == throttle && ThrottleInRange()
    {
      this.sc := sc;
      enableWriteThrottle := throttle;
      writeThrottleLimit := if throttle then MIN_THROTTLE else MAX_INT32;
    }

    ghost predicate ThrottleInRange()
      reads this
    {
      MIN_THROTTLE <= writeThrottleLimit <= MAX_INT32
    }

    /** The limit after a frame was popped; the int32 addition may wrap. */
    method NextThrottle(openParent: bool)
      requires ThrottleInRange()
      modifies this`writeThrottleLimit
      ensures ThrottleInRange()
      ensures openParent ==> writeThrottleLimit == Min(old(writeThrottleLimit) + 1024, MAX_INT32)
      ensures !openParent ==> writeThrottleLimit == if enableWriteThrottle then 1024 else old(writeThrottleLimit)
    {
      if openParent {
        writeThrottleLimit := Wrap32(writeThrottleLimit + 1024);
        if writeThrottleLimit < 0 {
          writeThrottleLimit := MAX_INT32;
        }
      } else if enableWriteThrottle {
        writeThrottleLimit := 1024;
      }
    }

    /** The queue's consume, on the queue of a node. */
    method ConsumeNode(n: Node, limit: int32, ghost S: set<Node>) returns (wr: Option<WriteReq>)
      requires sc.Valid() && MIN_THROTTLE <= limit && n in S
      requires forall i :: 0 <= i < |n.q| ==> Ready(n.q[i], sc.View())
      modifies n`q, sc.flow`n, sc.flows.Values`n
      ensures sc.Valid()
      ensures wr.None? ==> n.q == old(n.q) && sc.View() == old(sc.View()) && Stuck(n.q, sc.View())
      ensures wr.Some? ==> TookUnder(limit, old(n.q), old(sc.View()), wr.value, n.q, sc.View())
      ensures QueuesOf(S) == old(QueuesOf(S))[n := n.q]
    {
      hide SendConn.Valid, SendConn.View;
      ghost var q, w := n.q, sc.View();
      MaxFramePositive(sc);
      BlockedIsStuck(q, w, limit);
      if n.q == [] {
        return None;
      }
      var consumed, rest, num := ConsumeRequest(sc, n.q[0], limit);
      if num == 0 {
        return None;
      } else if num == 1 {
        n.q := n.q[1..];
      } else {
        n.q := [rest] + n.q[1..];
      }
      return Some(consumed);
    }

    /** Queues, windows and throttle before or after a walk. */
    ghost predicate Sending(S: set<Node>, B: Scene)
      reads this, S`q, S`state, S`subtreeBytes, sc, sc.flow, sc.flows.Values
    {
      sc.Valid() && ThrottleInRange() && AllReady(B.Q, B.w) && Now(S) == B
    }

    /** The state of the scheduler as a scene. */
    ghost function Now(S: set<Node>): Scene
      reads this, S`q, S`state, S`subtreeBytes, sc, sc.flow, sc.flows.Values
    {
      Scene(QueuesOf(S), sc.View(), writeThrottleLimit, OpenOf(S), BytesOf(S))
    }

    /** The limit for the next frame: it grows while only streams below open ones send, and falls back otherwise. */
    ghost function NextLimit(P: Parents, B: Scene, from: Node): int {
      if AboveOpen(P, B.open, from) then Min(B.limit + 1024, MAX_INT32) else if enableWriteThrottle then 1024 else B.limit
    }

    /** A walk ended: with nothing popped below `n`, or one frame popped from a node below `n`. */
    ghost predicate Walked(S: set<Node>, P: Parents, B: Scene, n: Node, wr: Option<WriteReq>, from: Node)
      reads this, S`q, S`state, S`subtreeBytes, sc, sc.flow, sc.flows.Values
    {
      && sc.Valid() && ThrottleInRange()
      && (wr.None? ==> Sending(S, B) && forall x :: x in P && x in B.Q && Below(P, x, n) ==> Stuck(B.Q[x], B.w))
      && (wr.Some? ==>
            && from in S && from in B.Q && Below(P, from, n) && DependencyStuck(P, n, from, B.Q, B.w)
            && TookUnder(LimitFor(P, B, from), B.Q[from], B.w, wr.value, from.q, sc.View())
            && writeThrottleLimit == NextLimit(P, B, from)
            && QueuesOf(S) == B.Q[from := from.q] && BytesOf(S) == Charged(P, B.sub, from, wr.value.DataSize()))
    }

    /** What the callback does once it has a frame. */
    method Account(n: Node, size: int, openParent: bool, ghost S: set<Node>, ghost P: Parents, ghost D: map<Node, nat>, ghost B: Scene)
      requires n in S && P == ParentsOf(LinksOf(S)) && Leveled(P, D) && (openParent <==> AboveOpen(P, B.open, n))
      requires ThrottleInRange() && writeThrottleLimit == B.limit && BytesOf(S) == B.sub
      modifies this`writeThrottleLimit, n`bytes, S`subtreeBytes
      ensures ThrottleInRange() && writeThrottleLimit == NextLimit(P, B, n) && BytesOf(S) == Charged(P, B.sub, n, size)
    {
      hide LinksOf, ParentsOf, BytesOf, Charged, Leveled, AboveOpen;
      AddBytes(n, size, S, P, D);
      NextThrottle(openParent);
    }

    /** The visit of one node: Pop's callback on a node whose queue may be empty. */
    method Visit(n: Node, openParent: bool, ghost S: set<Node>, ghost P: Parents, ghost D: map<Node, nat>, ghost B: Scene)
      returns (wr: Option<WriteReq>)
      requires n in S && P == ParentsOf(LinksOf(S)) && Leveled(P, D) && Sending(S, B) && (openParent <==> AboveOpen(P, B.open, n))
      modifies this`writeThrottleLimit, n`q, n`bytes, S`subtreeBytes, sc.flow`n, sc.flows.Values`n
      ensures wr.None? ==> Sending(S, B) && n in B.Q && Stuck(B.Q[n], B.w)
      ensures wr.Some? ==> Walked(S, P, B, n, wr, n)
    {
      hide LinksOf, ParentsOf, Leveled, Stuck, TookUnder, SendConn.Valid, SendConn.View, QueuesOf, Below, AboveOpen, BytesOf, OpenOf, Charged, Walked, Sending, AllReady;
      SendingIs(n, S, B);
      var limit := if openParent then writeThrottleLimit else MAX_INT32;
      wr := ConsumeNode(n, limit, S);
      if wr.None? {
        assert B.Q[n := n.q] == B.Q;
        SendingNow(S, B);
        return;
      }
      Account(n, wr.value.DataSize(), openParent, S, P, D, B);
      VisitWalked(n, S, P, D, B, wr);
    }

    lemma SendingIs(n: Node, S: set<Node>, B: Scene)
      requires Sending(S, B) && n in S
      ensures sc.Valid() && ThrottleInRange() && QueuesOf(S) == B.Q && n in B.Q && B.Q[n] == n.q && sc.View() == B.w && AllReady(B.Q, B.w)
      ensures writeThrottleLimit == B.limit && OpenOf(S) == B.open && BytesOf(S) == B.sub
      ensures forall i :: 0 <= i < |n.q| ==> Ready(n.q[i], sc.View())
    {
      QueueField(S, n);
    }

    lemma SendingNow(S: set<Node>, B: Scene)
      requires sc.Valid() && ThrottleInRange() && QueuesOf(S) == B.Q && sc.View() == B.w && AllReady(B.Q, B.w)
      requires writeThrottleLimit == B.limit && OpenOf(S) == B.open && BytesOf(S) == B.sub
      ensures Sending(S, B)
    {
    }

    lemma VisitWalked(n: Node, S: set<Node>, P: Parents, D: map<Node, nat>, B: Scene, wr: Option<WriteReq>)
      requires sc.Valid() && ThrottleInRange() && Leveled(P, D) && n in S && n in B.Q && wr.Some?
      requires TookUnder(LimitFor(P, B, n), B.Q[n], B.w, wr.value, n.q, sc.View()) && writeThrottleLimit == NextLimit(P, B, n)
      requires QueuesOf(S) == B.Q[n := n.q] && BytesOf(S) == Charged(P, B.sub, n, wr.value.DataSize())
      ensures Walked(S, P, B, n, wr, n)
    {
      NothingAbove(P, D, n, B.Q, B.w);
    }

    /** The loop over the kids of `n`, in list order. */
    method WalkKids(n: Node, openParent: bool, ghost K: Forest, ghost P: Parents, ghost D: map<Node, nat>, ghost top: nat,
                    ghost B: Scene) returns (wr: Option<WriteReq>, from: Node, ghost K2: Forest)
      requires TreeAt(K.Keys, K, P, D, top) && Sending(K.Keys, B) && n in K && n in B.Q && n in D && D[n] <= top
      requires Stuck(B.Q[n], B.w) && (openParent <==> AboveOpen(P, B.open, n) || n in B.open)
      modifies this`writeThrottleLimit, K.Keys`parent, K.Keys`kids, K.Keys`prev, K.Keys`next, K.Keys`q, K.Keys`bytes, K.Keys`subtreeBytes, sc.flow`n, sc.flows.Values`n
      ensures K2.Keys == K.Keys && TreeAt(K.Keys, K2, P, D, top) && Walked(K.Keys, P, B, n, wr, from)
      ensures forall x :: x in K && x in D && D[x] <= D[n] ==> K2[x] == K[x]
      decreases top - D[n], 0
    {
      hide TreeAt, Sending, Stuck, Walked, StuckBelow, Leveled, Below, AboveOpen;
      ghost var S, ks, j := K.Keys, K[n], 0;
      K2, from := K, n;
      HeadAt(S, K, P, D, top, n);
      StuckBelowNone(P, ks, B.Q, B.w);
      var k := n.kids;
      while k != null
        invariant j <= |ks| && k == At(ks, j) && K2.Keys == S
        invariant TreeAt(S, K2, P, D, top) && Sending(S, B) && StuckBelow(P, ks, j, B.Q, B.w)
        invariant forall x :: x in K && x in D && D[x] <= D[n] ==> K2[x] == K[x]
        decreases |ks| - j
      {
        KidAt(S, K2, P, D, top, n, j);
        KidAboveOpen(P, B.open, n, k);
        wr, from, K2 := Walk(k, openParent, K2, P, D, top, B);
        if wr.Some? {
          WalkedUp(S, P, D, n, k, B, wr, from);
          return;
        }
        WalkedPast(S, P, ks, j, B, from);
        KidAt(S, K2, P, D, top, n, j);
        k := k.next;
        j := j + 1;
      }
      StuckAll(n, S, P, ks, B);
      return None, n, K2;
    }

    /** A frame popped below a kid of `n` is popped below `n`. */
    lemma WalkedUp(S: set<Node>, P: Parents, D: map<Node, nat>, n: Node, c: Node, B: Scene,
                   wr: Option<WriteReq>, from: Node)
      requires Leveled(P, D) && P.Keys == S && c in P && P[c] == n && n in B.Q && Stuck(B.Q[n], B.w)
      requires wr.Some? && Walked(S, P, B, c, wr, from)
      ensures Walked(S, P, B, n, wr, from)
    {
      BelowKid(P, n, c, from);
      DependencyUp(P, D, n, c, from, B.Q, B.w);
    }

    /** When nothing was popped below the `j`-th kid, one more kid is done. */
    lemma WalkedPast(S: set<Node>, P: Parents, ks: seq<Node>, j: nat, B: Scene, from: Node)
      requires j < |ks| && StuckBelow(P, ks, j, B.Q, B.w) && Walked(S, P, B, ks[j], None, from)
      ensures Sending(S, B) && StuckBelow(P, ks, j + 1, B.Q, B.w)
    {
    }

    lemma StuckAll(n: Node, S: set<Node>, P: Parents, ks: seq<Node>, B: Scene)
      requires Sending(S, B) && n in P && n in B.Q && P.Keys == S && Stuck(B.Q[n], B.w)
      requires forall x :: x in ks <==> x in P && P[x] == n
      requires StuckBelow(P, ks, |ks|, B.Q, B.w)
      ensures Walked(S, P, B, n, None, n)
    {
      QueueField(S, n);
      StuckKids(P, n, ks, B.Q, B.w);
    }

    /** The part of walkReadyInOrder after the node itself: sort its kids if need be, then visit them. */
    method Descend(n: Node, openParent: bool, ghost K: Forest, ghost P: Parents, ghost D: map<Node, nat>, ghost top: nat,
                   ghost B: Scene) returns (wr: Option<WriteReq>, from: Node, ghost K2: Forest)
      requires TreeAt(K.Keys, K, P, D, top) && Sending(K.Keys, B) && n in K && n in B.Q && n in D && D[n] <= top
      requires Stuck(B.Q[n], B.w) && (openParent <==> AboveOpen(P, B.open, n))
      modifies this`writeThrottleLimit, K.Keys`parent, K.Keys`kids, K.Keys`prev, K.Keys`next, K.Keys`q, K.Keys`bytes, K.Keys`subtreeBytes, sc.flow`n, sc.flows.Values`n
      ensures K2.Keys == K.Keys && TreeAt(K.Keys, K2, P, D, top) && Walked(K.Keys, P, B, n, wr, from)
      ensures forall x :: x in K && x in D && D[x] < D[n] ==> K2[x] == K[x]
      decreases top - D[n], 1
    {
      hide Sending, Stuck, TreeAt, Walked, AboveOpen;
      K2, from := K, n;
      SendingOpen(n, K.Keys, B);
      HeadAt(K.Keys, K, P, D, top, n);
      if n.kids == null {
        StuckAll(n, K.Keys, P, [], B);
        return None, n, K2;
      }
      var open := if n.id != 0 then openParent || n.state == Open else openParent;
      K2 := SortKids(n, K, P, D, top);
      wr, from, K2 := WalkKids(n, open, K2, P, D, top, B);
    }

    /** walkReadyInOrder with Pop's callback. */
    method Walk(n: Node, openParent: bool, ghost K: Forest, ghost P: Parents, ghost D: map<Node, nat>, ghost top: nat,
                ghost B: Scene) returns (wr: Option<WriteReq>, from: Node, ghost K2: Forest)
      requires TreeAt(K.Keys, K, P, D, top) && Sending(K.Keys, B) && n in K && n in D && D[n] <= top
      requires openParent <==> AboveOpen(P, B.open, n)
      modifies this`writeThrottleLimit, K.Keys`parent, K.Keys`kids, K.Keys`prev, K.Keys`next, K.Keys`q, K.Keys`bytes, K.Keys`subtreeBytes, sc.flow`n, sc.flows.Values`n
      ensures K2.Keys == K.Keys && TreeAt(K.Keys, K2, P, D, top) && Walked(K.Keys, P, B, n, wr, from)
      ensures forall x :: x in K && x in D && D[x] < D[n] ==> K2[x] == K[x]
      decreases top - D[n], 2
    {
      hide Sending, Stuck, TreeAt, Walked, AboveOpen, LinksOf, ParentsOf, Leveled;
      K2, from := K, n;
      TreeParts(K.Keys, K, P, D, top);
      wr := Visit(n, openParent, K.Keys, P, D, B);
      if wr.None? {
        wr, from, K2 := Descend(n, openParent, K, P, D, top, B);
      }
    }

    lemma SendingQueue(n: Node, S: set<Node>, B: Scene)
      requires Sending(S, B) && n in S
      ensures B.Q.Keys == S && B.Q[n] == n.q
    {
      QueueField(S, n);
    }

    lemma SendingOpen(n: Node, S: set<Node>, B: Scene)
      requires Sending(S, B) && n in S
      ensures n in B.open <==> n.id != 0 && n.state == Open
    {
    }

    /**
     Pop on a tree whose nodes are all reachable from the root: it returns a frame unless every
     non-empty queue is headed by DATA without window.
     */
    method Pop(root: Node, ghost K: Forest) returns (wr: Option<WriteReq>, from: Node, ghost K2: Forest)
      requires WellFormed(K, root) && sc.Valid() && ThrottleInRange() && AllReady(QueuesOf(K.Keys), sc.View())
      modifies this`writeThrottleLimit, K.Keys`parent, K.Keys`kids, K.Keys`prev, K.Keys`next, K.Keys`q, K.Keys`bytes, K.Keys`subtreeBytes, sc.flow`n, sc.flows.Values`n
      ensures sc.Valid() && ThrottleInRange()
      ensures K2.Keys == K.Keys && WellFormed(K2, root)
      ensures ParentsOf(LinksOf(K.Keys)) == old(ParentsOf(LinksOf(K.Keys)))
      ensures wr.None? ==> Now(K.Keys) == old(Now(K.Keys))
      ensures wr.None? <==> forall x :: x in K ==> Stuck(old(x.q), old(sc.View()))
      ensures wr.Some? ==> var P, B := old(ParentsOf(LinksOf(K.Keys))), old(Now(K.Keys));
        && from in K && TookUnder(LimitFor(P, B, from), old(from.q), old(sc.View()), wr.value, from.q, sc.View())
        && (forall a :: a in K && IsAncestor(P, a, from) ==> Stuck(old(a.q), old(sc.View())))
        && QueuesOf(K.Keys) == old(QueuesOf(K.Keys))[from := from.q]
        && writeThrottleLimit == NextLimit(P, B, from)
        && BytesOf(K.Keys) == Charged(P, old(BytesOf(K.Keys)), from, wr.value.DataSize())
    {
      hide Linked, LinksOf, ParentsOf, IsForest, Leveled, SendConn.Valid, SendConn.View, Stuck, TookUnder, QueuesOf, AllReady, AboveOpen, BytesOf, OpenOf, Charged;
      ghost var S, P, B := K.Keys, ParentsOf(LinksOf(K.Keys)), Now(K.Keys);
      LinkKeys(S);
      RootInside(P, root);
      RootNotAboveOpen(P, root, B.open);
      SendingQueue(root, S, B);
      ghost var D := TreeLeveled(P, root);
      ghost var top := MaxLevel(D, S);
      forall x | x in S
        ensures B.Q[x] == old(x.q)
      {
        SendingQueue(x, S, B);
      }
      wr, from, K2 := Walk(root, false, K, P, D, top, B);
      if wr.None? {
        StuckEverywhere(P, root, B.Q, B.w);
      } else {
        TookNotStuck(LimitFor(P, B, from), B.Q[from], B.w, wr.value, from.q, sc.View());
        DependencyOfRoot(P, root, from, B.Q, B.w);
      }
    }
  }

  lemma RootInside(P: Parents, root: Node)
    requires IsTree(P, root)
    ensures root in P && P[root] == null
  {
  }
}
