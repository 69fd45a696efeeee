/**
 The HTTP/1 client's idle connections: a list per cache key, most recently used last, and one list
 over all keys, most recently used first, that must hold the same connections.

 A connection is named by a number and its cache key. Time is a counter that grows with every put.
 Whether a waiting dialer takes a connection, and when one breaks, is free.
 */
module IdlePool {
  import opened Basics
  import opened Sequences

  type Key(==) = string

  datatype Conn = Conn(id: nat, key: Key)

  /** As configured: 0 stands for the default of two per host and for no bound on the total. */
  datatype Config = Config(noKeepAlive: bool, perHost: int, total: int)

  function PerHost(c: Config): int { if c.perHost != 0 then c.perHost else 2 }

  /** `at` is when each connection last became idle. */
  datatype Pool = Pool(idle: map<Key, seq<Conn>>, lru: seq<Conn>, at: map<Conn, nat>, clock: nat, closed: set<Conn>, wantIdle: bool)

  const Empty := Pool(map[], [], map[], 0, {}, false)

  datatype PutResult = KeepAlivesDisabled | ConnBroken | NotCachingH2 | HandedOver | WantIdle | TooManyIdleHost | Duplicate | Stored

  // ------------------------------------------------------------------- order of use

  predicate Timed(s: seq<Conn>, at: map<Conn, nat>) { forall c <- s :: c in at }

  predicate Ascending(s: seq<Conn>, at: map<Conn, nat>) {
    Timed(s, at) && forall i, j :: 0 <= i < j < |s| ==> at[s[i]] < at[s[j]]
  }

  predicate Descending(s: seq<Conn>, at: map<Conn, nat>) {
    Timed(s, at) && forall i, j :: 0 <= i < j < |s| ==> at[s[i]] > at[s[j]]
  }

  lemma WithoutAscending(s: seq<Conn>, c: Conn, at: map<Conn, nat>)
    requires Ascending(s, at)
    ensures Ascending(Without(s, c), at)
  {
    if c in s {
      var i := IndexOf(s, c);
      WithoutFirst(s, c, i);
    } else {
      WithoutAbsent(s, c);
    }
  }

  lemma WithoutDescending(s: seq<Conn>, c: Conn, at: map<Conn, nat>)
    requires Descending(s, at)
    ensures Descending(Without(s, c), at)
  {
    if c in s {
      var i := IndexOf(s, c);
      WithoutFirst(s, c, i);
    } else {
      WithoutAbsent(s, c);
    }
  }

  // ------------------------------------------------------------------ operations

  function List(p: Pool, key: Key): seq<Conn> { if key in p.idle then p.idle[key] else [] }

  /** An empty list has no entry. */
  function SetList(idle: map<Key, seq<Conn>>, key: Key, s: seq<Conn>): map<Key, seq<Conn>> {
    if s == [] then idle - {key} else idle[key := s]
  }

  function Remove(p: Pool, c: Conn): Pool {
    p.(lru := Without(p.lru, c), idle := SetList(p.idle, c.key, Without(List(p, c.key), c)))
  }

  /** Appends `c`, then closes and removes the longest idle one if there are too many. */
  function Store(cfg: Config, p: Pool, c: Conn): Pool {
    var p1 := Appended(p, c);
    if cfg.total != 0 && |p1.lru| > cfg.total then
      var oldest := p1.lru[|p1.lru| - 1];
      Remove(p1.(closed := p1.closed + {oldest}), oldest)
    else p1
  }

  function TryPut(cfg: Config, p: Pool, c: Conn, isH2: bool, dialerWaits: bool): (Pool, PutResult) {
    if cfg.noKeepAlive || cfg.perHost < 0 then (p, KeepAlivesDisabled)
    else if c in p.closed then (p, ConnBroken)
    else if isH2 then (p, NotCachingH2)
    else if dialerWaits then (p, HandedOver)
    else if p.wantIdle then (p, WantIdle)
    else if |List(p, c.key)| >= PerHost(cfg) then (p, TooManyIdleHost)
    else if c in List(p, c.key) then (p, Duplicate)
    else (Store(cfg, p, c), Stored)
  }

  /** The most recently used connection of a key. */
  function Last(p: Pool, key: Key): Conn
    requires List(p, key) != []
  {
    List(p, key)[|List(p, key)| - 1]
  }

  function Popped(p: Pool, key: Key): (q: Pool)
    requires List(p, key) != []
    ensures List(q, key) == List(p, key)[..|List(p, key)| - 1] && q.closed == p.closed
  {
    var s := List(p, key);
    p.(idle := SetList(p.idle, key, s[..|s| - 1]), lru := Without(p.lru, s[|s| - 1]))
  }

  /** Takes the last of the key's list, again and again while it is closed. */
  function Get(p: Pool, key: Key): (Pool, Option<Conn>)
    decreases |List(p, key)|
  {
    if List(p, key) == [] then (p, None)
    else if Last(p, key) in p.closed then Get(Popped(p, key), key)
    else (Popped(p, key), Some(Last(p, key)))
  }

  lemma GetStep(p: Pool, key: Key)
    requires List(p, key) != []
    ensures Get(p, key) == if Last(p, key) in p.closed then Get(Popped(p, key), key) else (Popped(p, key), Some(Last(p, key)))
  {
  }

  lemma GetNone(p: Pool, key: Key)
    requires key !in p.idle
    ensures Get(p, key) == (p, None)
  {
  }

  function Timeout(p: Pool, c: Conn): Pool {
    if c in p.lru then Remove(p, c).(closed := p.closed + {c}) else p
  }

  function CloseAll(p: Pool): Pool {
    p.(idle := map[], lru := [], wantIdle := true, closed := p.closed + set c | c in p.lru)
  }

  datatype Event = Put(c: Conn, isH2: bool, dialerWaits: bool) | GetFor(key: Key) | RemoveConn(c: Conn)
                 | TimerFired(c: Conn) | CloseIdle | Breaks(c: Conn) | WaitFor

  /** A duplicate put ends the process, so no event follows it. */
  function Step(cfg: Config, p: Pool, e: Event): Pool {
    match e
    case Put(c, isH2, dialerWaits) => TryPut(cfg, p, c, isH2, dialerWaits).0
    case GetFor(key) => Get(p, key).0
    case RemoveConn(c) => Remove(p, c)
    case TimerFired(c) => Timeout(p, c)
    case CloseIdle => CloseAll(p)
    case Breaks(c) => p.(closed := p.closed + {c})
    case WaitFor => p.(wantIdle := false)
  }

  function Run(cfg: Config, es: seq<Event>): Pool {
    if es == [] then Empty else Step(cfg, Run(cfg, es[..|es| - 1]), es[|es| - 1])
  }

  // ------------------------------------------------------------------- invariant

  /** A key's list: in the order of use, under its own key, all in the LRU. */
  predicate ListOk(s: seq<Conn>, key: Key, lru: seq<Conn>, at: map<Conn, nat>) {
    Ascending(s, at) && forall c <- s :: c.key == key && c in lru
  }

  predicate Listed(p: Pool, c: Conn) { c in List(p, c.key) }

  predicate LruOk(lru: seq<Conn>, at: map<Conn, nat>, clock: nat) {
    Descending(lru, at) && forall c <- lru :: at[c] <= clock
  }

  /** The lists and the LRU hold the same connections, each under its own key, in the order of use. */
  ghost predicate Agree(p: Pool) {
    && (forall key <- p.idle :: p.idle[key] != [])
    && (forall key: Key :: ListOk(List(p, key), key, p.lru, p.at))
    && (forall c <- p.lru :: Listed(p, c))
    && LruOk(p.lru, p.at, p.clock)
  }

  function Cap(cfg: Config): nat { if PerHost(cfg) < 0 then 0 else PerHost(cfg) }

  ghost predicate Bounded(cfg: Config, p: Pool) {
    && (forall key: Key :: |List(p, key)| <= Cap(cfg))
    && (cfg.total > 0 ==> |p.lru| <= cfg.total)
    && (cfg.total < 0 ==> p.lru == [])
  }

  ghost predicate Inv(cfg: Config, p: Pool) { Agree(p) && Bounded(cfg, p) }

  lemma AscendingDistinct(s: seq<Conn>, at: map<Conn, nat>)
    requires Ascending(s, at) || Descending(s, at)
    ensures Distinct(s)
  {
  }

  lemma SetListAt(p: Pool, q: Pool, key: Key, s: seq<Conn>)
    requires q.idle == SetList(p.idle, key, s)
    ensures forall k: Key :: List(q, k) == if k == key then s else List(p, k)
    ensures (forall k <- p.idle :: p.idle[k] != []) ==> forall k <- q.idle :: q.idle[k] != []
  {
  }

  /** A list stays right when the LRU loses nothing of it. */
  lemma ListKept(s: seq<Conn>, key: Key, lru: seq<Conn>, at: map<Conn, nat>, lru': seq<Conn>, at': map<Conn, nat>)
    requires ListOk(s, key, lru, at)
    requires forall d <- s :: d in lru ==> d in lru' && d in at && d in at' && at'[d] == at[d]
    ensures ListOk(s, key, lru', at')
  {
  }

  lemma WithoutListOk(s: seq<Conn>, key: Key, lru: seq<Conn>, at: map<Conn, nat>, c: Conn)
    requires ListOk(s, key, lru, at) && Distinct(lru)
    ensures ListOk(Without(s, c), key, Without(lru, c), at)
    ensures forall d :: d in Without(s, c) <==> d in s && d != c
    ensures |Without(s, c)| <= |s|
  {
    WithoutDistinct(lru, c);
    AscendingDistinct(s, at);
    WithoutDistinct(s, c);
    WithoutAscending(s, c, at);
  }

  lemma WithoutLruOk(lru: seq<Conn>, at: map<Conn, nat>, clock: nat, c: Conn)
    requires LruOk(lru, at, clock)
    ensures Distinct(lru) && LruOk(Without(lru, c), at, clock)
    ensures forall d :: d in Without(lru, c) <==> d in lru && d != c
    ensures |Without(lru, c)| == |lru| - (if c in lru then 1 else 0)
  {
    AscendingDistinct(lru, at);
    WithoutDistinct(lru, c);
    WithoutDescending(lru, c, at);
  }

  lemma RemoveAgrees(p: Pool, c: Conn)
    requires Agree(p)
    ensures Agree(Remove(p, c))
    ensures |Remove(p, c).lru| == |p.lru| - (if c in p.lru then 1 else 0)
    ensures forall key: Key :: |List(Remove(p, c), key)| <= |List(p, key)|
    ensures c !in Remove(p, c).lru
  {
    hide Without, ListOk, LruOk, List;
    var q := Remove(p, c);
    var s := List(p, c.key);
    WithoutLruOk(p.lru, p.at, p.clock, c);
    assert ListOk(s, c.key, p.lru, p.at);
    WithoutListOk(s, c.key, p.lru, p.at, c);
    SetListAt(p, q, c.key, Without(s, c));
    forall key: Key ensures ListOk(List(q, key), key, q.lru, q.at) {
      if key != c.key {
        assert ListOk(List(p, key), key, p.lru, p.at);
        OtherKey(List(p, key), key, p.lru, p.at, c);
        ListKept(List(p, key), key, p.lru, p.at, q.lru, q.at);
      }
    }
    forall d <- q.lru ensures Listed(q, d) { assert Listed(p, d); }
  }

  lemma OtherKey(s: seq<Conn>, key: Key, lru: seq<Conn>, at: map<Conn, nat>, c: Conn)
    requires ListOk(s, key, lru, at) && key != c.key
    ensures c !in s && Timed(s, at)
  {
  }

  function Appended(p: Pool, c: Conn): Pool {
    p.(idle := p.idle[c.key := List(p, c.key) + [c]], lru := [c] + p.lru, at := p.at[c := p.clock + 1], clock := p.clock + 1)
  }

  lemma AppendList(s: seq<Conn>, c: Conn, lru: seq<Conn>, at: map<Conn, nat>, clock: nat)
    requires ListOk(s, c.key, lru, at) && LruOk(lru, at, clock) && c !in lru
    ensures ListOk(s + [c], c.key, [c] + lru, at[c := clock + 1])
  {
  }

  lemma AppendLru(c: Conn, lru: seq<Conn>, at: map<Conn, nat>, clock: nat)
    requires LruOk(lru, at, clock) && c !in lru
    ensures LruOk([c] + lru, at[c := clock + 1], clock + 1)
  {
  }

  lemma AppendAgrees(p: Pool, c: Conn)
    requires Agree(p) && c !in p.lru
    ensures Agree(Appended(p, c))
  {
    hide ListOk, LruOk, List;
    var q := Appended(p, c);
    var s := List(p, c.key);
    assert q.idle == SetList(p.idle, c.key, s + [c]);
    SetListAt(p, q, c.key, s + [c]);
    AppendLru(c, p.lru, p.at, p.clock);
    forall key: Key ensures ListOk(List(q, key), key, q.lru, q.at) {
      assert ListOk(List(p, key), key, p.lru, p.at);
      if key == c.key { AppendList(s, c, p.lru, p.at, p.clock); }
      else {
        OtherKey(List(p, key), key, p.lru, p.at, c);
        ListKept(List(p, key), key, p.lru, p.at, q.lru, q.at);
      }
    }
    forall d <- q.lru ensures Listed(q, d) { if d != c { assert Listed(p, d); } }
  }

  lemma NewIsNotIdle(p: Pool, c: Conn)
    requires Agree(p)
    ensures c in p.lru <==> c in List(p, c.key)
  {
    assert ListOk(List(p, c.key), c.key, p.lru, p.at);
    assert c in p.lru ==> Listed(p, c);
  }

  lemma StoreKeeps(cfg: Config, p: Pool, c: Conn)
    requires Inv(cfg, p) && c !in List(p, c.key) && |List(p, c.key)| < PerHost(cfg)
    ensures Inv(cfg, Store(cfg, p, c))
  {
    hide Agree, Remove;
    NewIsNotIdle(p, c);
    AppendAgrees(p, c);
    var q := Appended(p, c);
    forall key: Key ensures |List(q, key)| <= Cap(cfg) { assert |List(p, key)| <= Cap(cfg); }
    if cfg.total != 0 && |q.lru| > cfg.total {
      var oldest := q.lru[|q.lru| - 1];
      var q1 := q.(closed := q.closed + {oldest});
      SameAgrees(q, q1);
      RemoveAgrees(q1, oldest);
      forall key: Key ensures |List(q1, key)| <= Cap(cfg) { assert List(q1, key) == List(q, key); }
      ShrinkBounded(cfg, q1, Remove(q1, oldest));
    }
  }

  lemma ShrinkBounded(cfg: Config, p: Pool, q: Pool)
    requires Bounded(cfg.(total := 0), p) && forall key: Key :: |List(q, key)| <= |List(p, key)|
    requires (cfg.total > 0 ==> |q.lru| <= cfg.total) && (cfg.total < 0 ==> q.lru == [])
    ensures Bounded(cfg, q)
  {
    forall key: Key ensures |List(q, key)| <= Cap(cfg) { assert |List(q, key)| <= |List(p, key)| <= Cap(cfg); }
  }

  lemma SameAgrees(p: Pool, q: Pool)
    requires Agree(p) && q == p.(closed := q.closed, wantIdle := q.wantIdle)
    ensures Agree(q)
  {
    hide ListOk, LruOk;
    forall key: Key ensures List(q, key) == List(p, key) { }
    forall c <- q.lru ensures Listed(q, c) { assert Listed(p, c); }
  }

  /** Taking the last of a list is removing that connection. */
  lemma PopIsRemove(p: Pool, key: Key)
    requires Agree(p) && List(p, key) != []
    ensures Last(p, key).key == key && Popped(p, key) == Remove(p, Last(p, key))
  {
    var s := List(p, key);
    assert ListOk(s, key, p.lru, p.at);
    AscendingDistinct(s, p.at);
    WithoutFirst(s, s[|s| - 1], |s| - 1);
    assert s[..|s| - 1] + s[|s|..] == s[..|s| - 1];
  }

  lemma RemoveKeeps(cfg: Config, p: Pool, c: Conn)
    requires Inv(cfg, p)
    ensures Inv(cfg, Remove(p, c))
  {
    hide Agree, Remove;
    RemoveAgrees(p, c);
    ShrinkBounded(cfg, p, Remove(p, c));
  }

  lemma {:induction false} GetKeeps(cfg: Config, p: Pool, key: Key)
    requires Inv(cfg, p)
    ensures Inv(cfg, Get(p, key).0)
    decreases |List(p, key)|
  {
    hide Inv, Remove;
    assert Agree(p) by { UnfoldInv(cfg, p); }
    hide Agree;
    var s := List(p, key);
    if s != [] {
      PopIsRemove(p, key);
      RemoveKeeps(cfg, p, s[|s| - 1]);
      if s[|s| - 1] in p.closed {
        var q := Remove(p, s[|s| - 1]);
        assert List(q, key) == s[..|s| - 1];
        GetKeeps(cfg, q, key);
      }
    }
  }

  lemma UnfoldInv(cfg: Config, p: Pool)
    requires Inv(cfg, p)
    ensures Agree(p) && Bounded(cfg, p)
  {
  }

  lemma StepKeeps(cfg: Config, p: Pool, e: Event)
    requires Inv(cfg, p)
    ensures Inv(cfg, Step(cfg, p, e))
  {
    hide Agree, Bounded, Get, Remove, Store;
    match e
    case Put(c, isH2, dialerWaits) => if TryPut(cfg, p, c, isH2, dialerWaits).1.Stored? { StoreKeeps(cfg, p, c); }
    case GetFor(key) => GetKeeps(cfg, p, key);
    case RemoveConn(c) => RemoveKeeps(cfg, p, c);
    case TimerFired(c) =>
      RemoveKeeps(cfg, p, c);
      SameKeeps(cfg, Remove(p, c), Remove(p, c).(closed := p.closed + {c}));
    case CloseIdle => EmptyKeeps(cfg, CloseAll(p));
    case Breaks(c) => SameKeeps(cfg, p, p.(closed := p.closed + {c}));
    case WaitFor => SameKeeps(cfg, p, p.(wantIdle := false));
  }

  lemma SameKeeps(cfg: Config, p: Pool, q: Pool)
    requires Inv(cfg, p) && q == p.(closed := q.closed, wantIdle := q.wantIdle)
    ensures Inv(cfg, q)
  {
    SameAgrees(p, q);
    hide Agree;
    ShrinkBounded(cfg, p, q);
  }

  lemma EmptyKeeps(cfg: Config, p: Pool)
    requires p.idle == map[] && p.lru == []
    ensures Inv(cfg, p)
  {
  }

  /** Over every run the lists and the LRU agree and the bounds hold. */
  lemma {:induction false} RunInv(cfg: Config, es: seq<Event>)
    ensures Inv(cfg, Run(cfg, es))
  {
    hide Inv, Step;
    if es == [] {
      EmptyKeeps(cfg, Empty);
    } else {
      RunInv(cfg, es[..|es| - 1]);
      StepKeeps(cfg, Run(cfg, es[..|es| - 1]), es[|es| - 1]);
    }
  }

  // ---------------------------------------------------------------- what follows

  predicate Usable(p: Pool, key: Key, c: Conn) { c in p.lru && c.key == key && c !in p.closed }

  ghost predicate MostRecent(p: Pool, key: Key, got: Option<Conn>) {
    match got
    case Some(c) => Usable(p, key, c) && c in p.at && forall d <- p.lru :: Usable(p, key, d) ==> d in p.at && p.at[d] <= p.at[c]
    case None => forall d <- p.lru :: !Usable(p, key, d)
  }

  /** Get takes the most recently used open connection of the key, and nothing only when there is none. */
  lemma {:induction false} GetMostRecent(p: Pool, key: Key)
    requires Agree(p)
    ensures MostRecent(p, key, Get(p, key).1)
    decreases |List(p, key)|
  {
    var s := List(p, key);
    assert ListOk(s, key, p.lru, p.at);
    if s == [] {
      forall d <- p.lru ensures !Usable(p, key, d) { assert Listed(p, d); }
    } else {
      var c := s[|s| - 1];
      assert c in p.lru;
      PopIsRemove(p, key);
      if c in p.closed {
        var q := Remove(p, c);
        assert List(q, key) == s[..|s| - 1];
        RemoveAgrees(p, c);
        GetMostRecent(q, key);
        OneLess(p, q, c, key, Get(q, key).1);
      } else {
        forall d <- p.lru | Usable(p, key, d) ensures d in p.at && p.at[d] <= p.at[c] { assert Listed(p, d); }
      }
    }
  }

  lemma OneLess(p: Pool, q: Pool, c: Conn, key: Key, got: Option<Conn>)
    requires Agree(p) && q == Remove(p, c) && c in p.closed && MostRecent(q, key, got)
    ensures MostRecent(p, key, got)
  {
    WithoutLruOk(p.lru, p.at, p.clock, c);
    hide Without, ListOk, LruOk, List;
    forall d: Conn ensures Usable(q, key, d) <==> Usable(p, key, d) { }
  }

  /** When the total is exceeded, the connection idle for longest goes, and is closed. */
  lemma EvictsOldest(cfg: Config, p: Pool, c: Conn) returns (oldest: Conn)
    requires Inv(cfg, p) && c !in p.lru && cfg.total > 0 && |p.lru| == cfg.total
    ensures oldest in p.lru && oldest in p.at && forall d <- p.lru :: d in p.at && p.at[oldest] <= p.at[d]
    ensures oldest in Store(cfg, p, c).closed
    ensures forall d :: d in Store(cfg, p, c).lru <==> (d in p.lru && d != oldest) || d == c
  {
    hide Inv, Agree, Without, LruOk, List, Remove;
    oldest := p.lru[|p.lru| - 1];
    var q := Appended(p, c);
    UnfoldInv(cfg, p);
    UnfoldAgree(p);
    AppendLru(c, p.lru, p.at, p.clock);
    OldestIsLast(p.lru, p.at, p.clock);
    WithoutLruOk(q.lru, q.at, q.clock, oldest);
    assert q.lru[|q.lru| - 1] == oldest;
    RemoveIs(q.(closed := q.closed + {oldest}), oldest);
  }

  lemma RemoveIs(p: Pool, c: Conn)
    ensures Remove(p, c) == p.(lru := Without(p.lru, c), idle := Remove(p, c).idle)
  {
  }

  lemma UnfoldAgree(p: Pool)
    requires Agree(p)
    ensures LruOk(p.lru, p.at, p.clock) && forall key <- p.idle :: p.idle[key] != []
  {
  }

  lemma OldestIsLast(lru: seq<Conn>, at: map<Conn, nat>, clock: nat)
    requires LruOk(lru, at, clock) && lru != []
    ensures forall d <- lru :: d in at && at[lru[|lru| - 1]] <= at[d]
  {
    assert lru[|lru| - 1] in lru;
  }

  // ------------------------------------------------------------ what each call means

  /** What storing `c` keeps: every other connection but the longest idle one of a full pool, which is closed. */
  ghost predicate StoredIn(cfg: Config, p: Pool, q: Pool, c: Conn) {
    && (cfg.total >= 0 ==> c in q.lru)
    && (forall d <- q.lru :: d in p.lru || d == c)
    && (forall d <- p.lru :: d in q.lru || (cfg.total > 0 && |p.lru| == cfg.total && d == p.lru[|p.lru| - 1]))
    && (cfg.total == 0 || |p.lru| < cfg.total ==> q.closed == p.closed)
    && (cfg.total > 0 && |p.lru| == cfg.total ==> p.lru[|p.lru| - 1] !in q.lru && q.closed == p.closed + {p.lru[|p.lru| - 1]})
    && (cfg.total < 0 ==> q.lru == [] && q.closed == p.closed + {c})
    && q.at == p.at[c := p.clock + 1] && q.clock == p.clock + 1 && q.wantIdle == p.wantIdle
  }

  lemma EvictedLru(lru: seq<Conn>, at: map<Conn, nat>, clock: nat, c: Conn)
    requires LruOk(lru, at, clock) && c !in lru && lru != []
    ensures var t, last := Without([c] + lru, lru[|lru| - 1]), lru[|lru| - 1];
      && c in t && last !in t
      && (forall d <- t :: d in lru || d == c)
      && (forall d <- lru :: d in t || d == last)
  {
    AppendLru(c, lru, at, clock);
    WithoutLruOk([c] + lru, at[c := clock + 1], clock + 1, lru[|lru| - 1]);
    hide Without, LruOk;
    assert lru[|lru| - 1] in lru;
  }

  lemma StoreEvicts(cfg: Config, p: Pool, c: Conn)
    requires cfg.total > 0 && |p.lru| == cfg.total
    ensures var q, oldest := Store(cfg, p, c), p.lru[|p.lru| - 1];
      && q.lru == Without([c] + p.lru, oldest) && q.closed == p.closed + {oldest}
      && q.at == p.at[c := p.clock + 1] && q.clock == p.clock + 1 && q.wantIdle == p.wantIdle
  {
    hide Without, List, Remove;
    var q, oldest := Appended(p, c), p.lru[|p.lru| - 1];
    assert q.lru[|q.lru| - 1] == oldest;
    RemoveIs(q.(closed := q.closed + {oldest}), oldest);
  }

  lemma StoreFull(cfg: Config, p: Pool, c: Conn)
    requires Inv(cfg, p) && c !in p.lru && cfg.total > 0 && |p.lru| == cfg.total
    ensures StoredIn(cfg, p, Store(cfg, p, c), c)
  {
    UnfoldInv(cfg, p);
    UnfoldAgree(p);
    hide Inv, Agree, Bounded, Without, LruOk, Store;
    EvictedLru(p.lru, p.at, p.clock, c);
    StoreEvicts(cfg, p, c);
  }

  lemma StoreNone(cfg: Config, p: Pool, c: Conn)
    requires cfg.total < 0 && p.lru == []
    ensures StoredIn(cfg, p, Store(cfg, p, c), c)
  {
    hide List, Remove, Without;
    var q := Appended(p, c);
    assert q.lru == [c];
    RemoveIs(q.(closed := q.closed + {c}), c);
    WithoutFirst([c], c, 0);
  }

  lemma StoreRoom(cfg: Config, p: Pool, c: Conn)
    requires cfg.total == 0 || (cfg.total > 0 && |p.lru| < cfg.total)
    ensures StoredIn(cfg, p, Store(cfg, p, c), c)
  {
    hide List, Remove;
  }

  lemma StoreIs(cfg: Config, p: Pool, c: Conn)
    requires Inv(cfg, p) && c !in p.lru
    ensures StoredIn(cfg, p, Store(cfg, p, c), c)
  {
    UnfoldInv(cfg, p);
    hide Inv, Agree, List, StoredIn, Store;
    if cfg.total < 0 { StoreNone(cfg, p, c); }
    else if cfg.total > 0 && |p.lru| == cfg.total { StoreFull(cfg, p, c); }
    else { StoreRoom(cfg, p, c); }
  }

  /**
   A put stores the connection if and only if keep-alives are on, it is neither broken nor HTTP/2 nor
   idle already, no dialer waits for it, the pool was not just emptied, and its host has fewer idle ones
   than allowed; any other answer leaves the pool as it was. The next get for its key then returns it.
   */
  lemma PutThenGet(cfg: Config, p: Pool, c: Conn, isH2: bool, dialerWaits: bool)
    requires Inv(cfg, p)
    ensures var (q, r) := TryPut(cfg, p, c, isH2, dialerWaits);
      && (r.Stored? <==>
           && !cfg.noKeepAlive && cfg.perHost >= 0 && c !in p.closed && !isH2 && !dialerWaits && !p.wantIdle
           && |List(p, c.key)| < (if cfg.perHost == 0 then 2 else cfg.perHost) && c !in p.lru)
      && (!r.Stored? ==> q == p)
      && (r.Stored? ==> StoredIn(cfg, p, q, c))
      && (r.Stored? && cfg.total >= 0 ==> Get(q, c.key).1 == Some(c))
  {
    hide Agree, Bounded, Get, Store;
    NewIsNotIdle(p, c);
    var (q, r) := TryPut(cfg, p, c, isH2, dialerWaits);
    if r.Stored? {
      StoreIs(cfg, p, c);
      StoreKeeps(cfg, p, c);
      UnfoldInv(cfg, p);
      if cfg.total >= 0 {
        NewIsOpen(cfg, p, q, c);
        UnfoldInv(cfg, q);
        NewestIsGot(q, c);
      }
    }
  }

  lemma NewIsOpen(cfg: Config, p: Pool, q: Pool, c: Conn)
    requires Bounded(cfg, p) && StoredIn(cfg, p, q, c) && c !in p.lru && c !in p.closed && cfg.total >= 0
    ensures c !in q.closed && c in q.at && q.at[c] == q.clock
  {
    hide List;
    if cfg.total > 0 && |p.lru| == cfg.total { assert p.lru[|p.lru| - 1] in p.lru; }
  }

  lemma NewestIsGot(p: Pool, c: Conn)
    requires Agree(p) && c in p.lru && c !in p.closed && c in p.at && p.at[c] == p.clock
    ensures Get(p, c.key).1 == Some(c)
  {
    hide List, Get, ListOk;
    GetMostRecent(p, c.key);
    assert Usable(p, c.key, c);
    var got := Get(p, c.key).1;
    if got.Some? {
      var i := IndexOf(p.lru, c);
      var j := IndexOf(p.lru, got.value);
      assert p.at[p.lru[i]] == p.at[p.lru[j]];
    }
  }

  /** Each refusal has its reason. */
  lemma RefusalReasons(cfg: Config, p: Pool, c: Conn, isH2: bool, dialerWaits: bool)
    requires Inv(cfg, p)
    ensures match TryPut(cfg, p, c, isH2, dialerWaits).1
      case KeepAlivesDisabled => cfg.noKeepAlive || cfg.perHost < 0
      case ConnBroken => c in p.closed
      case NotCachingH2 => isH2
      case HandedOver => dialerWaits && c !in p.closed
      case WantIdle => p.wantIdle
      case TooManyIdleHost => |List(p, c.key)| == if cfg.perHost == 0 then 2 else cfg.perHost
      case Duplicate => c in p.lru
      case Stored => true
  {
    NewIsNotIdle(p, c);
    UnfoldInv(cfg, p);
    hide Agree;
    assert |List(p, c.key)| <= Cap(cfg);
  }

  /** Of the key's connections, a get drops the one it returns and the closed ones that were idle for less time, and no other. */
  ghost predicate Taken(p: Pool, q: Pool, key: Key, got: Option<Conn>) {
    && q == p.(idle := q.idle, lru := q.lru)
    && forall d: Conn :: d in q.lru <==> d in p.lru && (d.key != key || OlderThan(p, d, got))
  }

  predicate OlderThan(p: Pool, d: Conn, got: Option<Conn>) {
    got.Some? && d in p.at && got.value in p.at && p.at[d] < p.at[got.value]
  }

  lemma {:induction false} GetTakes(p: Pool, key: Key)
    requires Agree(p)
    ensures Taken(p, Get(p, key).0, key, Get(p, key).1)
    decreases |List(p, key)|
  {
    var s := List(p, key);
    assert ListOk(s, key, p.lru, p.at);
    if s == [] {
      forall d <- p.lru ensures d.key != key { assert Listed(p, d); }
    } else {
      var c := s[|s| - 1];
      assert c in s && c in p.lru;
      PopIsRemove(p, key);
      var q := Remove(p, c);
      WithoutLruOk(p.lru, p.at, p.clock, c);
      LastIsNewest(p, key);
      if c in p.closed {
        assert List(q, key) == s[..|s| - 1];
        RemoveAgrees(p, c);
        GetTakes(q, key);
        GetMostRecent(q, key);
        TakenMore(p, q, Get(q, key).0, c, key, Get(q, key).1);
      }
    }
  }

  lemma LastIsNewest(p: Pool, key: Key)
    requires Agree(p) && List(p, key) != []
    ensures Timed(List(p, key), p.at) && Last(p, key) in p.at
    ensures forall d <- p.lru :: d.key == key && d != Last(p, key) ==> d in p.at && p.at[d] < p.at[Last(p, key)]
  {
    var s := List(p, key);
    assert ListOk(s, key, p.lru, p.at);
    forall d <- p.lru | d.key == key && d != s[|s| - 1] ensures d in p.at && p.at[d] < p.at[s[|s| - 1]] {
      assert Listed(p, d);
      var i := IndexOf(s, d);
    }
  }

  lemma TakenMore(p: Pool, q: Pool, r: Pool, c: Conn, key: Key, got: Option<Conn>)
    requires q == p.(idle := q.idle, lru := q.lru) && Taken(q, r, key, got) && MostRecent(q, key, got)
    requires (forall d :: d in q.lru <==> d in p.lru && d != c) && c in p.lru && c.key == key && c in p.at
    requires forall d <- p.lru :: d.key == key && d != c ==> d in p.at && p.at[d] < p.at[c]
    ensures Taken(p, r, key, got)
  {
    forall d: Conn ensures d in r.lru <==> d in p.lru && (d.key != key || OlderThan(p, d, got)) {
      assert OlderThan(q, d, got) <==> OlderThan(p, d, got);
    }
  }

  /** Removing takes one connection out and closes nothing; the timer closes it if it was idle; closing all closes exactly the idle ones. */
  lemma OthersStay(p: Pool, c: Conn)
    requires Agree(p)
    ensures var q := Remove(p, c);
      q == p.(idle := q.idle, lru := q.lru) && forall d: Conn :: d in q.lru <==> d in p.lru && d != c
    ensures var q := Timeout(p, c);
      && (forall d: Conn :: d in q.lru <==> d in p.lru && d != c)
      && (forall d: Conn :: d in q.closed <==> d in p.closed || (d == c && c in p.lru))
    ensures var q := CloseAll(p);
      q.lru == [] && q.wantIdle && forall d: Conn :: d in q.closed <==> d in p.closed || d in p.lru
  {
    WithoutLruOk(p.lru, p.at, p.clock, c);
    hide Without, LruOk, ListOk, List;
  }

  /** The transport's pool, guarded by its mutex. */
  class Transport {
    const cfg: Config
    var idleConn: map<Key, seq<Conn>>
    var ll: seq<Conn>
    var m: set<Conn>
    var idleAt: map<Conn, nat>
    var clock: nat
    var closed: set<Conn>
    var wantIdle: bool

    ghost function Abs(): Pool reads this { Pool(idleConn, ll, idleAt, clock, closed, wantIdle) }

    ghost predicate Valid() reads this {
      Inv(cfg, Abs()) && forall c :: c in m <==> c in ll
    }

    constructor (cfg: Config)
      ensures Valid() && Abs() == Empty && this.cfg == cfg
    {
      this.cfg := cfg;
      idleConn, ll, m, idleAt, clock, closed, wantIdle := map[], [], {}, map[], 0, {}, false;
      new;
      EmptyKeeps(cfg, Abs());
    }

    method LruRemove(c: Conn)
      modifies this`ll, this`m
      requires (forall d :: d in m <==> d in ll) && Distinct(ll)
      ensures ll == Without(old(ll), c) && forall d :: d in m <==> d in ll
    {
      WithoutDistinct(ll, c);
      if c in m {
        var i := 0;
        while ll[i] != c
          invariant 0 <= i < |ll| && c !in ll[..i]
          decreases |ll| - i
        {
          assert c in ll[i + 1..] by { var k := IndexOf(ll, c); assert k > i; assert ll[i + 1..][k - i - 1] == c; }
          i := i + 1;
        }
        WithoutFirst(ll, c, i);
        ll := ll[..i] + ll[i + 1..];
        m := m - {c};
      } else {
        WithoutAbsent(ll, c);
      }
    }

    /** Slides the rest of the list down over the removed connection. */
    method ListRemove(c: Conn)
      requires forall key <- idleConn :: idleConn[key] != []
      modifies this`idleConn
      ensures idleConn == SetList(old(idleConn), c.key, Without(old(List(Abs(), c.key)), c))
    {
      if c.key !in idleConn {
        assert Without([], c) == [];
        return;
      }
      var pconns := idleConn[c.key];
      if |pconns| == 1 {
        if pconns[0] == c { idleConn := idleConn - {c.key}; } else { WithoutAbsent(pconns, c); }
        return;
      }
      var i := 0;
      while i < |pconns| && pconns[i] != c
        invariant 0 <= i <= |pconns| && c !in pconns[..i]
      {
        i := i + 1;
      }
      if i < |pconns| {
        WithoutFirst(pconns, c, i);
        idleConn := idleConn[c.key := pconns[..i] + pconns[i + 1..]];
      } else {
        assert pconns[..i] == pconns;
        WithoutAbsent(pconns, c);
      }
    }

    method RemoveIdleConn(c: Conn)
      requires Valid()
      modifies this`ll, this`m, this`idleConn
      ensures Valid() && Abs() == old(Remove(Abs(), c))
    {
      hide Inv, Agree, Without, LruOk;
      UnfoldInv(cfg, Abs());
      UnfoldAgree(Abs());
      LruDistinct(Abs());
      RemoveKeeps(cfg, Abs(), c);
      LruRemove(c);
      ListRemove(c);
    }

    method CloseConnIfStillIdle(c: Conn)
      requires Valid()
      modifies this
      ensures Valid() && Abs() == old(Timeout(Abs(), c))
    {
      hide Inv, Remove;
      StepKeeps(cfg, Abs(), TimerFired(c));
      if c !in m { return; }
      RemoveIdleConn(c);
      closed := closed + {c};
    }

    method TryPutIdleConn(c: Conn, isH2: bool, dialerWaits: bool) returns (r: PutResult)
      requires Valid()
      modifies this
      ensures Valid() && (Abs(), r) == old(TryPut(cfg, Abs(), c, isH2, dialerWaits))
    {
      StepKeeps(cfg, Abs(), Put(c, isH2, dialerWaits));
      if cfg.noKeepAlive || cfg.perHost < 0 { return KeepAlivesDisabled; }
      if c in closed { return ConnBroken; }
      if isH2 { return NotCachingH2; }
      if dialerWaits { return HandedOver; }
      if wantIdle { return WantIdle; }
      var idles := if c.key in idleConn then idleConn[c.key] else [];
      if |idles| >= PerHost(cfg) { return TooManyIdleHost; }
      var i := 0;
      while i < |idles|
        invariant 0 <= i <= |idles| && c !in idles[..i]
      {
        if idles[i] == c { return Duplicate; }
        i := i + 1;
      }
      assert idles[..i] == idles;
      NewIsNotIdle(Abs(), c);
      StoreConn(c, idles);
      r := Stored;
    }

    /** The LRU's panic for a connection already in it cannot happen: c is in no list. */
    method StoreConn(c: Conn, idles: seq<Conn>)
      requires Valid() && c !in ll && idles == List(Abs(), c.key) && |idles| < PerHost(cfg)
      modifies this
      ensures Valid() && Abs() == old(Store(cfg, Abs(), c))
    {
      hide Inv, Agree, Without;
      ghost var p := Abs();
      UnfoldInv(cfg, p);
      NewIsNotIdle(p, c);
      StoreKeeps(cfg, p, c);
      AppendAgrees(p, c);
      UnfoldAgree(Appended(p, c));
      LruDistinct(Appended(p, c));
      idleConn := idleConn[c.key := idles + [c]];
      ll := [c] + ll;
      assert c !in m;
      m := m + {c};
      clock := clock + 1;
      idleAt := idleAt[c := clock];
      assert Abs() == Appended(p, c);
      if cfg.total != 0 && |ll| > cfg.total {
        Evict();
      }
      assert Abs() == Store(cfg, p, c);
    }

    method Evict()
      requires ll != [] && Distinct(ll) && (forall d :: d in m <==> d in ll) && forall key <- idleConn :: idleConn[key] != []
      modifies this`ll, this`m, this`idleConn, this`closed
      ensures forall d :: d in m <==> d in ll
      ensures var p, c := old(Abs()), old(ll[|ll| - 1]); Abs() == Remove(p.(closed := p.closed + {c}), c)
    {
      hide Without;
      var oldest := ll[|ll| - 1];
      closed := closed + {oldest};
      LruRemove(oldest);
      ListRemove(oldest);
    }

    /** Takes the most recently used connection of a key that has one. */
    method PopLast(key: Key) returns (c: Conn)
      requires Valid() && key in idleConn
      modifies this`ll, this`m, this`idleConn
      ensures Valid() && c == old(Last(Abs(), key)) && Abs() == old(Popped(Abs(), key))
    {
      hide Inv, Agree, Without, LruOk;
      ghost var p := Abs();
      UnfoldInv(cfg, p);
      NonEmpty(p, key);
      PopIsRemove(p, key);
      LruDistinct(p);
      var pconns := idleConn[key];
      c := pconns[|pconns| - 1];
      RemoveKeeps(cfg, p, c);
      LruRemove(c);
      idleConn := if |pconns| == 1 then idleConn - {key} else idleConn[key := pconns[..|pconns| - 1]];
    }

    method GetIdleConn(key: Key) returns (r: Option<Conn>)
      requires Valid()
      modifies this
      ensures Valid() && (Abs(), r) == old(Get(Abs(), key))
    {
      hide Inv, Get, Popped, Last;
      while key in idleConn
        invariant Valid() && Get(Abs(), key) == old(Get(Abs(), key))
        decreases |List(Abs(), key)|
      {
        InvNonEmpty(cfg, Abs(), key);
        GetStep(Abs(), key);
        var c := PopLast(key);
        if c !in closed { return Some(c); }
      }
      GetNone(Abs(), key);
      r := None;
    }

    method CloseIdleConnections()
      requires Valid()
      modifies this
      ensures Valid() && Abs() == old(CloseAll(Abs()))
    {
      ghost var p := Abs();
      EmptyKeeps(cfg, CloseAll(p));
      var lists := idleConn;
      idleConn, ll, m, wantIdle := map[], [], {}, true;
      var left := lists.Keys;
      while left != {}
        invariant left <= lists.Keys && (idleConn, ll, m, wantIdle, idleAt, clock) == (map[], [], {}, true, p.at, p.clock)
        invariant forall c :: c in closed <==> c in p.closed || (c.key !in left && c in List(p, c.key))
        decreases |left|
      {
        var key :| key in left;
        KeyOf(p, key);
        closed := closed + set c | c in lists[key];
        left := left - {key};
      }
      forall c ensures c in closed <==> c in CloseAll(p).closed { NewIsNotIdle(p, c); }
      assert closed == CloseAll(p).closed;
    }
  }

  lemma NonEmpty(p: Pool, key: Key)
    requires Agree(p) && key in p.idle
    ensures p.idle[key] != []
  {
  }

  lemma InvNonEmpty(cfg: Config, p: Pool, key: Key)
    requires Inv(cfg, p) && key in p.idle
    ensures List(p, key) != []
  {
  }

  lemma KeyOf(p: Pool, key: Key)
    requires Agree(p)
    ensures forall c <- List(p, key) :: c.key == key
  {
    assert ListOk(List(p, key), key, p.lru, p.at);
  }

  lemma LruDistinct(p: Pool)
    requires Agree(p)
    ensures Distinct(p.lru)
  {
    AscendingDistinct(p.lru, p.at);
  }
}
