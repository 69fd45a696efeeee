/**
 Jar keys: with no public suffix list, a host's cookies are filed under its last two labels.
 */
module JarKeys {
  /** The position of the last dot, or -1. */
  function LastDot(s: string): (r: int)
    ensures -1 <= r < |s|
  {
    if s == "" then -1
    else if s[|s| - 1] == '.' then |s| - 1
    else LastDot(s[..|s| - 1])
  }

  /** A dot that is not the first character. */
  predicate Dotted(s: string) { LastDot(s) > 0 }

  function KeyByDots(host: string): (key: string) {
    var i := LastDot(host);
    if i <= 0 then host else host[LastDot(host[..i - 1]) + 1..]
  }

  /** An address is its own key. */
  function JarKey(isIP: string -> bool, host: string): string {
    if isIP(host) then host else KeyByDots(host)
  }

  predicate HasDotSuffix(s: string, suffix: string) {
    |s| > |suffix| && s[|s| - |suffix| - 1] == '.' && s[|s| - |suffix|..] == suffix
  }

  predicate IsLastDot(s: string, r: int) {
    -1 <= r < |s| && (r >= 0 ==> s[r] == '.') && forall i :: r < i < |s| ==> s[i] != '.'
  }

  lemma {:induction false} LastDotIs(s: string, r: int)
    ensures LastDot(s) == r <==> IsLastDot(s, r)
  {
    if s != "" && s[|s| - 1] != '.' {
      var t := s[..|s| - 1];
      LastDotIs(t, r);
      assert IsLastDot(t, r) <==> IsLastDot(s, r) by {
        if IsLastDot(s, r) { assert r < |s| - 1; }
      }
    }
  }

  /** Only what follows the last dot of the prefix counts when the suffix has none. */
  lemma LastDotConcat(x: string, d: string)
    ensures LastDot(x + d) == if LastDot(d) >= 0 then |x| + LastDot(d) else LastDot(x)
  {
    LastDotIs(d, LastDot(d));
    LastDotIs(x, LastDot(x));
    LastDotIs(x + d, if LastDot(d) >= 0 then |x| + LastDot(d) else LastDot(x));
  }

  lemma SliceConcat(x: string, d: string, k: nat)
    requires k <= |d|
    ensures (x + d)[|x| + k..] == d[k..] && (x + d)[..|x| + k] == x + d[..k]
  {
  }

  lemma KeyIs(host: string, i: int, head: string)
    requires LastDot(host) == i > 0 && head == host[..i - 1]
    ensures KeyByDots(host) == host[LastDot(head) + 1..]
  {
  }

  lemma KeyOfConcat(x: string, d: string)
    requires x != "" && x[|x| - 1] == '.' && Dotted(d)
    ensures KeyByDots(x + d) == KeyByDots(d)
  {
    hide LastDot, KeyByDots;
    var i := LastDot(d);
    var head := d[..i - 1];
    LastDotConcat(x, d);
    SliceConcat(x, d, i - 1);
    LastDotConcat(x, head);
    LastDotIs(x, |x| - 1);
    SliceConcat(x, d, LastDot(head) + 1);
    KeyIs(d, i, head);
    KeyIs(x + d, |x| + i, x + head);
  }

  /** A host and every domain above it with an interior dot have the same key. */
  lemma KeyOfSuffix(h: string, d: string)
    requires HasDotSuffix(h, d) && Dotted(d)
    ensures KeyByDots(h) == KeyByDots(d)
  {
    var x := h[..|h| - |d|];
    assert h == x + d;
    KeyOfConcat(x, d);
  }

  /** A label before a dotless domain makes a key of its own. */
  lemma KeyOfLabel(c: char, d: string)
    requires c != '.' && '.' !in d
    ensures KeyByDots([c] + "." + d) == [c] + "." + d
  {
    var h := [c] + "." + d;
    assert h[1] == '.';
    LastDotIs(h, 1);
    assert h[..0] == "";
  }
}

/**
 The cookie jar: entries in buckets by jar key, found again by searching one bucket
 (sections 5.1.3, 5.1.4, 5.3 and 5.4 of RFC 6265). Hosts are canonical; what an IP address looks
 like is left open.
 */
module CookieJar {
  import opened Basics
  import opened JarKeys

  datatype Cookie = Cookie(name: string, value: string, path: string, domain: string,
                           maxAge: int, expires: Option<int>, secure: bool, httpOnly: bool)

  datatype Entry = Entry(name: string, value: string, domain: string, path: string, secure: bool, httpOnly: bool,
                         persistent: bool, hostOnly: bool, expires: int, creation: int, lastAccess: int, seqNum: nat)

  type Bucket = map<string, Entry>

  datatype State = State(entries: map<string, Bucket>, nextSeqNum: nat)

  const Empty := State(map[], 0)

  /** 9999-12-31 23:59:59 UTC, in seconds. */
  const EndOfTime := 253402300799

  function Id(e: Entry): string { e.domain + ";" + e.path + ";" + e.name }

  // --------------------------------------------------------------------- matching

  predicate DomainMatch(e: Entry, host: string) {
    e.domain == host || (!e.hostOnly && HasDotSuffix(host, e.domain))
  }

  predicate PathMatch(e: Entry, path: string)
    requires e.path != ""
  {
    || path == e.path
    || (e.path <= path && (e.path[|e.path| - 1] == '/' || path[|e.path|] == '/'))
  }

  /** Section 5.1.4 of RFC 6265: equal, or a prefix that ends at a slash on either side. */
  lemma PathMatchIsDirectory(e: Entry, path: string)
    requires e.path != ""
    ensures PathMatch(e, path) <==>
      path == e.path || exists rest: string :: rest != "" && path == e.path + rest && (e.path[|e.path| - 1] == '/' || rest[0] == '/')
  {
    if path != e.path {
      if e.path <= path { assert path == e.path + path[|e.path|..]; }
      if rest: string :| rest != "" && path == e.path + rest && (e.path[|e.path| - 1] == '/' || rest[0] == '/') {
        assert path[|e.path|] == rest[0];
      }
    }
  }

  predicate Expired(e: Entry, now: int) { e.persistent && e.expires <= now }

  datatype Request = Request(host: string, path: string, https: bool, now: int)

  function PathOf(r: Request): string { if r.path == "" then "/" else r.path }

  /** Whether an entry goes out with a request. */
  predicate Sends(e: Entry, r: Request) {
    && !Expired(e, r.now)
    && DomainMatch(e, r.host) && e.path != "" && PathMatch(e, PathOf(r)) && (r.https || !e.secure)
  }

  // -------------------------------------------------------------------- new entries

  function LastSlash(s: string): (r: int)
    ensures -1 <= r < |s|
    ensures r >= 0 ==> s[r] == '/'
    ensures forall i :: r < i < |s| ==> s[i] != '/'
  {
    if s == "" then -1
    else if s[|s| - 1] == '/' then |s| - 1
    else LastSlash(s[..|s| - 1])
  }

  function DefaultPath(path: string): (r: string)
    ensures r != "" && r[0] == '/'
    ensures r != "/" ==> exists name :: path == r + "/" + name && '/' !in name
  {
    if path == "" || path[0] != '/' then "/"
    else
      var i := LastSlash(path);
      if i <= 0 then "/"
      else
        assert path == path[..i] + "/" + path[i + 1..];
        path[..i]
  }

  lemma LastSlashIs(s: string, r: nat)
    requires r < |s| && s[r] == '/' && forall i :: r < i < |s| ==> s[i] != '/'
    ensures LastSlash(s) == r
  {
  }

  /** Section 5.1.4 of RFC 6265: the directory of a path, that is all before its last slash ... */
  lemma DefaultPathIsDirectory(dir: string, name: string)
    requires dir != "" && dir[0] == '/' && '/' !in name
    ensures DefaultPath(dir + "/" + name) == dir
  {
    var path := dir + "/" + name;
    forall i | |dir| < i < |path| ensures path[i] != '/' { assert path[i] == name[i - |dir| - 1]; }
    LastSlashIs(path, |dir|);
    assert path[..|dir|] == dir;
  }

  /** ... or the root when that would be empty, or the path is not absolute. */
  lemma DefaultPathIsRoot(path: string)
    requires path == "" || path[0] != '/' || '/' !in path[1..]
    ensures DefaultPath(path) == "/"
  {
    if path != "" && path[0] == '/' {
      forall i | 0 < i < |path| ensures path[i] != '/' { assert path[i] == path[1..][i - 1]; }
      LastSlashIs(path, 0);
    }
  }

  function LowerChar(c: char): char {
    if 'A' <= c <= 'Z' then (c as int + 32) as char else c
  }

  function Lower(s: string): (r: string)
    ensures |r| == |s| && forall i :: 0 <= i < |s| ==> r[i] == LowerChar(s[i])
  {
    if s == "" then "" else [LowerChar(s[0])] + Lower(s[1..])
  }

  datatype DomainResult = Domain(domain: string, hostOnly: bool) | NoHostname | MalformedDomain | IllegalDomain

  function DomainAndType(isIP: string -> bool, host: string, domain: string): DomainResult {
    if domain == "" then Domain(host, true)
    else if isIP(host) then NoHostname
    else
      var d := if domain[0] == '.' then domain[1..] else domain;
      if d == "" || d[0] == '.' then MalformedDomain
      else
        var low := Lower(d);
        if low[|low| - 1] == '.' then MalformedDomain
        else if host != low && !HasDotSuffix(host, low) then IllegalDomain
        else Domain(low, false)
  }

  datatype Made = Refused | Removes(e: Entry) | Keeps(e: Entry)

  function NewEntry(isIP: string -> bool, c: Cookie, now: int, defPath: string, host: string): Made {
    var path := if c.path == "" || c.path[0] != '/' then defPath else c.path;
    var dt := DomainAndType(isIP, host, c.domain);
    if !dt.Domain? then Refused
    else
      var e := Entry(c.name, "", dt.domain, path, false, false, false, dt.hostOnly, 0, 0, 0, 0);
      if c.maxAge < 0 then Removes(e)
      else
        var full := e.(value := c.value, secure := c.secure, httpOnly := c.httpOnly);
        if c.maxAge > 0 then Keeps(full.(expires := now + c.maxAge, persistent := true))
        else if c.expires.None? then Keeps(full.(expires := EndOfTime, persistent := false))
        else if c.expires.value <= now then Removes(e)
        else Keeps(full.(expires := c.expires.value, persistent := true))
  }

  // --------------------------------------------------------------------- operations

  /** One cookie into a bucket: a replaced entry keeps its creation time and number. */
  function SetOne(isIP: string -> bool, b: Bucket, next: nat, c: Cookie, now: int, defPath: string, host: string): (Bucket, nat) {
    match NewEntry(isIP, c, now, defPath, host)
    case Refused => (b, next)
    case Removes(e) => (b - {Id(e)}, next)
    case Keeps(e) =>
      if Id(e) in b then
        (b[Id(e) := e.(creation := b[Id(e)].creation, seqNum := b[Id(e)].seqNum, lastAccess := now)], next)
      else (b[Id(e) := e.(creation := now, seqNum := next, lastAccess := now)], next + 1)
  }

  function SetAll(isIP: string -> bool, b: Bucket, next: nat, cs: seq<Cookie>, now: int, defPath: string, host: string): (Bucket, nat) {
    if cs == [] then (b, next)
    else
      var (b1, next1) := SetAll(isIP, b, next, cs[..|cs| - 1], now, defPath, host);
      SetOne(isIP, b1, next1, cs[|cs| - 1], now, defPath, host)
  }

  function BucketOf(s: State, key: string): Bucket { if key in s.entries then s.entries[key] else map[] }

  /** An empty bucket has no entry. */
  function PutBucket(s: State, key: string, b: Bucket): State {
    s.(entries := if b == map[] then s.entries - {key} else s.entries[key := b])
  }

  function SetCookies(isIP: string -> bool, s: State, host: string, path: string, cs: seq<Cookie>, now: int): State {
    var key := JarKey(isIP, host);
    var (b, next) := SetAll(isIP, BucketOf(s, key), s.nextSeqNum, cs, now, DefaultPath(path), host);
    PutBucket(s, key, b).(nextSeqNum := next)
  }

  /** A request drops the expired entries of its bucket and marks the ones it sends. */
  function Used(b: Bucket, r: Request): Bucket {
    map id | id in b && !Expired(b[id], r.now) :: if Sends(b[id], r) then b[id].(lastAccess := r.now) else b[id]
  }

  function AfterRequest(isIP: string -> bool, s: State, r: Request): State {
    PutBucket(s, JarKey(isIP, r.host), Used(BucketOf(s, JarKey(isIP, r.host)), r))
  }

  datatype Event = Set(host: string, path: string, cookies: seq<Cookie>, now: int) | Ask(r: Request)

  function Step(isIP: string -> bool, s: State, e: Event): State {
    match e
    case Set(host, path, cookies, now) => SetCookies(isIP, s, host, path, cookies, now)
    case Ask(r) => AfterRequest(isIP, s, r)
  }

  function Run(isIP: string -> bool, es: seq<Event>): State {
    if es == [] then Empty else Step(isIP, Run(isIP, es[..|es| - 1]), es[|es| - 1])
  }

  // ---------------------------------------------------------------------- invariant

  /** Where an entry may be filed. A dotless domain cookie is filed wherever its host was. */
  predicate Fits(isIP: string -> bool, key: string, e: Entry) {
    if e.hostOnly then JarKey(isIP, e.domain) == key
    else e.domain != "" && e.domain[0] != '.' && e.domain[|e.domain| - 1] != '.' && (Dotted(e.domain) ==> KeyByDots(e.domain) == key)
  }

  predicate EntryOk(isIP: string -> bool, key: string, e: Entry) {
    e.path != "" && e.path[0] == '/' && Fits(isIP, key, e)
  }

  predicate BucketOk(isIP: string -> bool, key: string, b: Bucket, next: nat) {
    && (forall id <- b :: EntryOk(isIP, key, b[id]) && b[id].seqNum < next && Id(b[id]) == id)
    && (forall id1 <- b, id2 <- b :: b[id1].seqNum == b[id2].seqNum ==> id1 == id2)
  }

  /** Buckets share no sequence number. */
  predicate Apart(b1: Bucket, b2: Bucket) {
    forall id1 <- b1, id2 <- b2 :: b1[id1].seqNum != b2[id2].seqNum
  }

  predicate Inv(isIP: string -> bool, s: State) {
    && (forall key <- s.entries :: s.entries[key] != map[] && BucketOk(isIP, key, s.entries[key], s.nextSeqNum))
    && (forall k1 <- s.entries, k2 <- s.entries :: k1 != k2 ==> Apart(s.entries[k1], s.entries[k2]))
  }

  /** A domain attribute is accepted only for the host itself or a domain above it. */
  lemma DomainFits(isIP: string -> bool, host: string, domain: string, e: Entry)
    requires DomainAndType(isIP, host, domain) == Domain(e.domain, e.hostOnly)
    ensures Fits(isIP, JarKey(isIP, host), e)
  {
    if domain != "" {
      var d := if domain[0] == '.' then domain[1..] else domain;
      assert Lower(d)[0] == LowerChar(d[0]);
      if host != e.domain && Dotted(e.domain) { KeyOfSuffix(host, e.domain); }
    }
  }

  /** The numbers a bucket gains are new: at least `next`. */
  predicate GrowsFrom(b: Bucket, next: nat, b1: Bucket) {
    forall id <- b1 :: b1[id].seqNum >= next || exists id0 <- b :: b[id0].seqNum == b1[id].seqNum
  }

  lemma ReplaceOk(isIP: string -> bool, key: string, b: Bucket, next: nat, id: string, e: Entry)
    requires BucketOk(isIP, key, b, next) && id in b && EntryOk(isIP, key, e) && e.seqNum == b[id].seqNum && Id(e) == id
    ensures BucketOk(isIP, key, b[id := e], next) && GrowsFrom(b, next, b[id := e])
  {
    hide EntryOk, Id;
  }

  lemma InsertOk(isIP: string -> bool, key: string, b: Bucket, next: nat, id: string, e: Entry)
    requires BucketOk(isIP, key, b, next) && id !in b && EntryOk(isIP, key, e) && e.seqNum == next && Id(e) == id
    ensures BucketOk(isIP, key, b[id := e], next + 1) && GrowsFrom(b, next, b[id := e])
  {
    hide EntryOk, Id;
  }

  lemma DeleteOk(isIP: string -> bool, key: string, b: Bucket, next: nat, id: string)
    requires BucketOk(isIP, key, b, next)
    ensures BucketOk(isIP, key, b - {id}, next) && GrowsFrom(b, next, b - {id})
  {
    hide EntryOk;
  }

  lemma SameEntryOk(isIP: string -> bool, key: string, e: Entry, d: Entry)
    requires EntryOk(isIP, key, e) && d.path == e.path && d.domain == e.domain && d.hostOnly == e.hostOnly
    ensures EntryOk(isIP, key, d) && (d.name == e.name ==> Id(d) == Id(e))
  {
  }

  lemma NewEntryOk(isIP: string -> bool, c: Cookie, now: int, defPath: string, host: string)
    requires defPath != "" && defPath[0] == '/'
    ensures var made := NewEntry(isIP, c, now, defPath, host); made.Keeps? ==> EntryOk(isIP, JarKey(isIP, host), made.e)
  {
    hide DomainAndType, Fits;
    var made := NewEntry(isIP, c, now, defPath, host);
    if made.Keeps? { DomainFits(isIP, host, c.domain, made.e); }
  }

  lemma SetOneOk(isIP: string -> bool, key: string, b: Bucket, next: nat, c: Cookie, now: int, defPath: string, host: string)
    requires BucketOk(isIP, key, b, next) && key == JarKey(isIP, host) && defPath != "" && defPath[0] == '/'
    ensures var (b1, next1) := SetOne(isIP, b, next, c, now, defPath, host);
      next <= next1 && BucketOk(isIP, key, b1, next1) && GrowsFrom(b, next, b1)
  {
    hide EntryOk, BucketOk, GrowsFrom, NewEntry, Id;
    NewEntryOk(isIP, c, now, defPath, host);
    match NewEntry(isIP, c, now, defPath, host)
    case Refused => SameGrows(b, next);
    case Removes(e) => DeleteOk(isIP, key, b, next, Id(e));
    case Keeps(e) =>
      if Id(e) in b {
        var d := e.(creation := b[Id(e)].creation, seqNum := b[Id(e)].seqNum, lastAccess := now);
        SameEntryOk(isIP, key, e, d);
        ReplaceOk(isIP, key, b, next, Id(e), d);
      } else {
        var d := e.(creation := now, seqNum := next, lastAccess := now);
        SameEntryOk(isIP, key, e, d);
        InsertOk(isIP, key, b, next, Id(e), d);
      }
  }

  lemma SameGrows(b: Bucket, next: nat)
    ensures GrowsFrom(b, next, b)
  {
  }

  lemma GrowsOn(b: Bucket, next: nat, b1: Bucket, next1: nat, b2: Bucket)
    requires GrowsFrom(b, next, b1) && next <= next1 && GrowsFrom(b1, next1, b2)
    ensures GrowsFrom(b, next, b2)
  {
  }

  lemma {:induction false} SetAllOk(isIP: string -> bool, key: string, b: Bucket, next: nat, cs: seq<Cookie>, now: int, defPath: string, host: string)
    requires BucketOk(isIP, key, b, next) && key == JarKey(isIP, host) && defPath != "" && defPath[0] == '/'
    ensures var (b1, next1) := SetAll(isIP, b, next, cs, now, defPath, host);
      next <= next1 && BucketOk(isIP, key, b1, next1) && GrowsFrom(b, next, b1)
  {
    hide BucketOk, GrowsFrom, SetOne;
    if cs == [] {
      SameGrows(b, next);
    } else {
      var last := |cs| - 1;
      SetAllOk(isIP, key, b, next, cs[..last], now, defPath, host);
      var (b1, next1) := SetAll(isIP, b, next, cs[..last], now, defPath, host);
      SetOneOk(isIP, key, b1, next1, cs[last], now, defPath, host);
      GrowsOn(b, next, b1, next1, SetOne(isIP, b1, next1, cs[last], now, defPath, host).0);
    }
  }

  lemma PutBucketOk(isIP: string -> bool, s: State, key: string, b: Bucket, next: nat)
    requires Inv(isIP, s) && s.nextSeqNum <= next && BucketOk(isIP, key, b, next) && GrowsFrom(BucketOf(s, key), s.nextSeqNum, b)
    ensures Inv(isIP, PutBucket(s, key, b).(nextSeqNum := next))
  {
    hide EntryOk;
    var t := PutBucket(s, key, b).(nextSeqNum := next);
    forall k <- t.entries ensures t.entries[k] != map[] && BucketOk(isIP, k, t.entries[k], next) {
      if k != key { assert BucketOk(isIP, k, s.entries[k], s.nextSeqNum); }
    }
    forall k1 <- t.entries, k2 <- t.entries | k1 != k2 ensures Apart(t.entries[k1], t.entries[k2]) {
      if k1 != key && k2 != key { assert Apart(s.entries[k1], s.entries[k2]); }
      else if k1 == key { GrownApart(isIP, s, key, b, k2); }
      else { GrownApart(isIP, s, key, b, k1); }
    }
  }

  lemma GrownApart(isIP: string -> bool, s: State, key: string, b: Bucket, k: string)
    requires Inv(isIP, s) && GrowsFrom(BucketOf(s, key), s.nextSeqNum, b) && k in s.entries && k != key
    ensures Apart(s.entries[k], b) && Apart(b, s.entries[k])
  {
    assert BucketOk(isIP, k, s.entries[k], s.nextSeqNum);
    assert Apart(BucketOf(s, key), s.entries[k]);
    hide EntryOk, Inv, BucketOk;
    var c := s.entries[k];
    forall id1 <- b, id2 <- c ensures b[id1].seqNum != c[id2].seqNum {
      if b[id1].seqNum < s.nextSeqNum {
        var id0 :| id0 in BucketOf(s, key) && BucketOf(s, key)[id0].seqNum == b[id1].seqNum;
        assert BucketOf(s, key)[id0].seqNum != c[id2].seqNum;
      }
    }
  }

  lemma UsedOk(isIP: string -> bool, key: string, b: Bucket, next: nat, r: Request)
    requires BucketOk(isIP, key, b, next)
    ensures BucketOk(isIP, key, Used(b, r), next) && GrowsFrom(b, next, Used(b, r))
  {
    hide EntryOk, Sends, Expired;
    forall id <- Used(b, r) ensures EntryOk(isIP, key, Used(b, r)[id]) {
      SameEntryOk(isIP, key, b[id], Used(b, r)[id]);
    }
  }

  lemma StepOk(isIP: string -> bool, s: State, e: Event)
    requires Inv(isIP, s)
    ensures Inv(isIP, Step(isIP, s, e))
  {
    hide EntryOk, BucketOk, GrowsFrom, SetAll, JarKey, Used, PutBucket;
    var key := JarKey(isIP, if e.Set? then e.host else e.r.host);
    BucketOfOk(isIP, s, key);
    match e
    case Set(host, path, cookies, now) =>
      SetAllOk(isIP, key, BucketOf(s, key), s.nextSeqNum, cookies, now, DefaultPath(path), host);
      var (b, next) := SetAll(isIP, BucketOf(s, key), s.nextSeqNum, cookies, now, DefaultPath(path), host);
      PutBucketOk(isIP, s, key, b, next);
    case Ask(r) =>
      UsedOk(isIP, key, BucketOf(s, key), s.nextSeqNum, r);
      PutBucketOk(isIP, s, key, Used(BucketOf(s, key), r), s.nextSeqNum);
      SameNext(s, key, Used(BucketOf(s, key), r));
  }

  lemma SameNext(s: State, key: string, b: Bucket)
    ensures PutBucket(s, key, b).(nextSeqNum := s.nextSeqNum) == PutBucket(s, key, b)
  {
  }

  lemma BucketOfOk(isIP: string -> bool, s: State, key: string)
    requires Inv(isIP, s)
    ensures BucketOk(isIP, key, BucketOf(s, key), s.nextSeqNum)
  {
  }

  /** Over every run stored paths start with a slash, entries are where they belong, numbers are unique. */
  lemma {:induction false} RunOk(isIP: string -> bool, es: seq<Event>)
    ensures Inv(isIP, Run(isIP, es))
  {
    hide Step, BucketOk;
    if es != [] {
      RunOk(isIP, es[..|es| - 1]);
      StepOk(isIP, Run(isIP, es[..|es| - 1]), es[|es| - 1]);
    }
  }

  // ------------------------------------------------- one bucket against all entries

  /** What a request finds in its own bucket. */
  function Found(isIP: string -> bool, s: State, r: Request): set<Entry> {
    var b := BucketOf(s, JarKey(isIP, r.host));
    set id | id in b && Sends(b[id], r) :: b[id]
  }

  /** What a scan of all entries finds. */
  function Scan(s: State, r: Request): set<Entry> {
    set key, id | key in s.entries && id in s.entries[key] && Sends(s.entries[key][id], r) :: s.entries[key][id]
  }

  predicate HostOrDotted(e: Entry) { e.hostOnly || Dotted(e.domain) }

  predicate AllHostOrDotted(s: State) {
    forall key <- s.entries :: forall id <- s.entries[key] :: HostOrDotted(s.entries[key][id])
  }

  lemma InItsBucket(isIP: string -> bool, key: string, e: Entry, r: Request)
    requires EntryOk(isIP, key, e) && HostOrDotted(e) && DomainMatch(e, r.host) && !isIP(r.host)
    ensures key == JarKey(isIP, r.host)
  {
    if !e.hostOnly && e.domain != r.host { KeyOfSuffix(r.host, e.domain); }
  }

  /** With host cookies and dotted domains only, the bucket holds all a scan would find. */
  lemma BucketFindsAll(isIP: string -> bool, s: State, r: Request)
    requires Inv(isIP, s) && AllHostOrDotted(s) && !isIP(r.host)
    ensures Found(isIP, s, r) == Scan(s, r)
  {
    hide EntryOk, HostOrDotted, JarKey;
    forall e <- Scan(s, r) ensures e in Found(isIP, s, r) {
      var key, id :| key in s.entries && id in s.entries[key] && Sends(s.entries[key][id], r) && s.entries[key][id] == e;
      assert BucketOk(isIP, key, s.entries[key], s.nextSeqNum);
      InItsBucket(isIP, key, e, r);
    }
  }

  /** No address is written with these letters. */
  ghost predicate IPLetters(isIP: string -> bool) {
    forall h :: isIP(h) ==> 'g' !in h && 'h' !in h
  }

  /** A domain without an interior dot and without dots at its ends has none. */
  lemma NoDots(isIP: string -> bool, key: string, e: Entry)
    requires EntryOk(isIP, key, e) && !HostOrDotted(e)
    ensures '.' !in e.domain && !e.hostOnly
  {
    LastDotIs(e.domain, LastDot(e.domain));
  }

  lemma LabelSuffix(c: char, d: string)
    ensures HasDotSuffix([c] + "." + d, d) && c in [c] + "." + d && ([c] + "." + d)[0] == c
  {
    var h := [c] + "." + d;
    assert h[0] == c && h[1] == '.' && h[2..] == d;
  }

  /** A request to `h` at the cookie's own path, before it expires. */
  lemma WouldSend(e: Entry, h: string)
    requires e.path != "" && !e.hostOnly && HasDotSuffix(h, e.domain)
    ensures Sends(e, Request(h, e.path, true, e.expires - 1))
  {
  }

  /** A domain cookie without a dot is missed by some request that a scan would send it with. */
  lemma DotlessIsMissed(isIP: string -> bool, s: State, key: string, id: string) returns (r: Request)
    requires Inv(isIP, s) && IPLetters(isIP) && key in s.entries && id in s.entries[key] && !HostOrDotted(s.entries[key][id])
    ensures !isIP(r.host) && s.entries[key][id] in Scan(s, r) && s.entries[key][id] !in Found(isIP, s, r)
  {
    var e := s.entries[key][id];
    hide Inv, EntryOk, HostOrDotted, Sends, KeyByDots, HasDotSuffix, Scan, Found, BucketOf;
    StoredOk(isIP, s, key, id);
    NoDots(isIP, key, e);
    var h := OtherHost(isIP, key, e.domain);
    r := Request(h, e.path, true, e.expires - 1);
    WouldSend(e, h);
    OnlyOneBucket(isIP, s, key, id, h);
    ScannedNotFound(isIP, s, key, id, r);
  }

  /** A named host below a dotless domain that is not the given one and is its own key. */
  lemma OtherHost(isIP: string -> bool, key: string, d: string) returns (h: string)
    requires IPLetters(isIP) && '.' !in d
    ensures !isIP(h) && h != key && HasDotSuffix(h, d) && JarKey(isIP, h) == h
  {
    hide KeyByDots, HasDotSuffix;
    LabelSuffix('g', d);
    LabelSuffix('h', d);
    var c := if key == ['g'] + "." + d then 'h' else 'g';
    h := [c] + "." + d;
    KeyOfLabel(c, d);
  }

  lemma ScannedNotFound(isIP: string -> bool, s: State, key: string, id: string, r: Request)
    requires key in s.entries && id in s.entries[key] && Sends(s.entries[key][id], r)
    requires var b := BucketOf(s, JarKey(isIP, r.host)); forall x <- b :: b[x] != s.entries[key][id]
    ensures s.entries[key][id] in Scan(s, r) && s.entries[key][id] !in Found(isIP, s, r)
  {
    hide Sends, JarKey;
  }

  lemma StoredOk(isIP: string -> bool, s: State, key: string, id: string)
    requires Inv(isIP, s) && key in s.entries && id in s.entries[key]
    ensures EntryOk(isIP, key, s.entries[key][id]) && s.entries[key][id].path != ""
  {
    assert BucketOk(isIP, key, s.entries[key], s.nextSeqNum);
    hide Fits, Id, Apart;
  }

  lemma OnlyOneBucket(isIP: string -> bool, s: State, key: string, id: string, h: string)
    requires Inv(isIP, s) && key in s.entries && id in s.entries[key] && h != key
    ensures forall x <- BucketOf(s, h) :: BucketOf(s, h)[x] != s.entries[key][id]
  {
    hide BucketOk;
    if h in s.entries { assert Apart(s.entries[h], s.entries[key]); }
  }

  /** Searching the bucket equals scanning, for all named hosts, if and only if all domain cookies are dotted. */
  lemma BucketIff(isIP: string -> bool, s: State)
    requires Inv(isIP, s) && IPLetters(isIP)
    ensures (forall r: Request :: !isIP(r.host) ==> Found(isIP, s, r) == Scan(s, r)) <==> AllHostOrDotted(s)
  {
    hide Inv, HostOrDotted, Found, Scan;
    if AllHostOrDotted(s) {
      forall r: Request | !isIP(r.host) ensures Found(isIP, s, r) == Scan(s, r) { BucketFindsAll(isIP, s, r); }
    } else {
      var key :| key in s.entries && exists id <- s.entries[key] :: !HostOrDotted(s.entries[key][id]);
      var id :| id in s.entries[key] && !HostOrDotted(s.entries[key][id]);
      var r := DotlessIsMissed(isIP, s, key, id);
    }
  }

  const ComCookie := Cookie("n", "v", "", "com", 0, None, false, false)

  lemma ComIsKept(isIP: string -> bool)
    requires !isIP("x.com")
    ensures var made := NewEntry(isIP, ComCookie, 0, "/", "x.com"); made.Keeps? && !HostOrDotted(made.e)
  {
    assert "x.com"[1] == '.' && "x.com"[2..] == "com";
    assert HasDotSuffix("x.com", "com");
    assert Lower("com") == "com";
    LastDotIs("com", -1);
  }

  /** Such a cookie can be stored: x.com sets one for all of com. */
  lemma DotlessIsStored(isIP: string -> bool)
    requires !isIP("x.com")
    ensures !AllHostOrDotted(Run(isIP, [Set("x.com", "/", [ComCookie], 0)]))
  {
    hide NewEntry, JarKey, DefaultPath, Id;
    ComIsKept(isIP);
    var es := [Set("x.com", "/", [ComCookie], 0)];
    var key, id := JarKey(isIP, "x.com"), Id(NewEntry(isIP, ComCookie, 0, "/", "x.com").e);
    var b := SetOne(isIP, map[], 0, ComCookie, 0, "/", "x.com").0;
    assert id in b && !HostOrDotted(b[id]);
    assert es[..0] == [] && [ComCookie][..0] == [];
    assert SetAll(isIP, map[], 0, [], 0, "/", "x.com") == (map[], 0);
    assert Run(isIP, []) == Empty;
    RootPath();
    assert Run(isIP, es).entries == map[key := b];
  }

  lemma RootPath()
    ensures DefaultPath("/") == "/"
  {
  }

  // ------------------------------------------------------------------- output order

  /** Longer paths first, then earlier creation, then lower sequence number. */
  predicate Less(a: Entry, b: Entry) {
    if |a.path| != |b.path| then |a.path| > |b.path|
    else if a.creation != b.creation then a.creation < b.creation
    else a.seqNum < b.seqNum
  }

  predicate Sorted(s: seq<Entry>) { forall i, j :: 0 <= i < j < |s| ==> Less(s[i], s[j]) }

  lemma FirstIn(s: seq<Entry>)
    ensures s != [] ==> exists e :: e in s
  {
    if s != [] { assert s[0] in s; }
  }

  /** Only one sequence holds given entries in order, whatever order the map gave them in. */
  lemma {:induction false} SortedUnique(s: seq<Entry>, t: seq<Entry>)
    requires Sorted(s) && Sorted(t) && forall e :: e in s <==> e in t
    ensures s == t
  {
    if s == [] {
      FirstIn(t);
    } else {
      assert s[0] in t;
      assert t[0] in s;
      assert s[0] == t[0];
      forall e ensures e in s[1..] <==> e in t[1..] {
        assert e in s <==> e == s[0] || e in s[1..];
        assert e in t <==> e == t[0] || e in t[1..];
        assert s[0] !in s[1..] && t[0] !in t[1..];
      }
      SortedUnique(s[1..], t[1..]);
    }
  }

  predicate Numbered(s: seq<Entry>) { forall i, j :: 0 <= i < j < |s| ==> s[i].seqNum != s[j].seqNum }

  /** Sorting entries with different numbers. */
  method SortEntries(s: seq<Entry>) returns (t: seq<Entry>)
    requires Numbered(s)
    ensures Sorted(t) && multiset(t) == multiset(s)
  {
    t := [];
    var i := 0;
    while i < |s|
      invariant 0 <= i <= |s| && Sorted(t) && multiset(t) == multiset(s[..i])
    {
      forall e <- t ensures e.seqNum != s[i].seqNum {
        assert e in multiset(s[..i]);
      }
      t := InsertEntry(t, s[i]);
      assert s[..i + 1] == s[..i] + [s[i]];
      i := i + 1;
    }
    assert s[..i] == s;
  }

  method InsertEntry(s: seq<Entry>, e: Entry) returns (t: seq<Entry>)
    requires Sorted(s) && forall d <- s :: d.seqNum != e.seqNum
    ensures Sorted(t) && multiset(t) == multiset(s) + multiset{e}
  {
    hide Less;
    var k := |s|;
    while k > 0 && Less(e, s[k - 1])
      invariant 0 <= k <= |s| && forall i :: k <= i < |s| ==> Less(e, s[i])
    {
      k := k - 1;
    }
    if k > 0 {
      assert s[k - 1] in s;
      LessTotal(s[k - 1], e);
      forall i | 0 <= i < k ensures Less(s[i], e) { if i < k - 1 { LessTrans(s[i], s[k - 1], e); } }
    }
    t := s[..k] + [e] + s[k..];
    InsertSorted(s, e, k);
  }

  lemma LessTotal(a: Entry, b: Entry)
    requires a.seqNum != b.seqNum
    ensures Less(a, b) || Less(b, a)
  {
  }

  lemma LessTrans(a: Entry, b: Entry, c: Entry)
    requires Less(a, b) && Less(b, c)
    ensures Less(a, c)
  {
  }

  lemma InsertSorted(s: seq<Entry>, e: Entry, k: nat)
    requires Sorted(s) && k <= |s| && (forall i :: 0 <= i < k ==> Less(s[i], e)) && (forall i :: k <= i < |s| ==> Less(e, s[i]))
    ensures var t := s[..k] + [e] + s[k..]; Sorted(t) && multiset(t) == multiset(s) + multiset{e}
  {
    hide Less;
    assert s == s[..k] + s[k..];
  }

  function Marked(e: Entry, now: int): Entry { e.(lastAccess := now) }

  datatype Pair = Pair(name: string, value: string)

  function Pairs(s: seq<Entry>): (r: seq<Pair>)
    ensures |r| == |s| && forall i :: 0 <= i < |s| ==> r[i] == Pair(s[i].name, s[i].value)
  {
    if s == [] then [] else [Pair(s[0].name, s[0].value)] + Pairs(s[1..])
  }

  class Jar {
    const isIP: string -> bool
    var entries: map<string, Bucket>
    var nextSeqNum: nat

    ghost function Abs(): State reads this { State(entries, nextSeqNum) }

    ghost predicate Valid() reads this { Inv(isIP, Abs()) }

    constructor (isIP: string -> bool)
      ensures Valid() && Abs() == Empty && this.isIP == isIP
    {
      this.isIP := isIP;
      entries, nextSeqNum := map[], 0;
    }

    /** `host` is missing when it has no canonical form. */
    method SetFrom(scheme: string, host: Option<string>, path: string, cookies: seq<Cookie>, now: int)
      requires Valid()
      modifies this
      ensures Valid()
      ensures Abs() == if (scheme == "http" || scheme == "https") && host.Some?
                       then SetCookies(isIP, old(Abs()), host.value, path, cookies, now) else old(Abs())
    {
      hide Inv, JarKey, NewEntry, Id;
      ghost var s := Abs();
      if (scheme != "http" && scheme != "https") || host.None? { return; }
      StepOk(isIP, s, Set(host.value, path, cookies, now));
      var key := JarKey(isIP, host.value);
      var defPath := DefaultPath(path);
      var submap := if key in entries then entries[key] else map[];
      var i := 0;
      while i < |cookies|
        invariant 0 <= i <= |cookies| && entries == s.entries
        invariant (submap, nextSeqNum) == SetAll(isIP, BucketOf(s, key), s.nextSeqNum, cookies[..i], now, defPath, host.value)
      {
        assert cookies[..i + 1][..i] == cookies[..i] && cookies[..i + 1][i] == cookies[i];
        match NewEntry(isIP, cookies[i], now, defPath, host.value) {
          case Refused =>
          case Removes(e) => submap := submap - {Id(e)};
          case Keeps(e) =>
            var id := Id(e);
            if id in submap {
              submap := submap[id := e.(creation := submap[id].creation, seqNum := submap[id].seqNum, lastAccess := now)];
            } else {
              submap := submap[id := e.(creation := now, seqNum := nextSeqNum, lastAccess := now)];
              nextSeqNum := nextSeqNum + 1;
            }
        }
        i := i + 1;
      }
      assert cookies[..i] == cookies;
      entries := if submap == map[] then entries - {key} else entries[key := submap];
    }

    /** The cookies for a request, in an order that does not depend on how the map is walked. */
    method CookiesFor(scheme: string, host: Option<string>, path: string, now: int) returns (cookies: seq<Pair>, selected: seq<Entry>)
      requires Valid()
      modifies this
      ensures Valid() && cookies == Pairs(selected) && Sorted(selected)
      ensures (scheme == "http" || scheme == "https") && host.Some? ==>
        var r := Request(host.value, path, scheme == "https", now);
        Abs() == AfterRequest(isIP, old(Abs()), r) && forall e :: e in selected <==> exists d <- Found(isIP, old(Abs()), r) :: e == Marked(d, now)
      ensures !((scheme == "http" || scheme == "https") && host.Some?) ==> Abs() == old(Abs()) && selected == []
    {
      hide Inv, BucketOk, JarKey, Sends, Expired;
      ghost var s := Abs();
      cookies, selected := [], [];
      if (scheme != "http" && scheme != "https") || host.None? { return; }
      var r := Request(host.value, path, scheme == "https", now);
      StepOk(isIP, s, Ask(r));
      var key := JarKey(isIP, host.value);
      BucketOfOk(isIP, s, key);
      var submap := if key in entries then entries[key] else map[];
      submap, selected := Walk(key, submap, nextSeqNum, r);
      entries := if submap == map[] then entries - {key} else entries[key := submap];
      selected := Ordered(selected);
      cookies := Pairs(selected);
    }

    method Ordered(s: seq<Entry>) returns (t: seq<Entry>)
      requires Numbered(s)
      ensures Sorted(t) && forall e :: e in t <==> e in s
    {
      t := SortEntries(s);
      forall e ensures e in t <==> e in s { assert e in t <==> e in multiset(t); assert e in s <==> e in multiset(s); }
    }

    /** Walks a bucket in any order. */
    method Walk(ghost key: string, b: Bucket, ghost next: nat, r: Request) returns (submap: Bucket, selected: seq<Entry>)
      requires BucketOk(isIP, key, b, next)
      ensures submap == Used(b, r) && Numbered(selected)
      ensures forall e :: e in selected <==> exists d <- (set id | id in b && Sends(b[id], r) :: b[id]) :: e == Marked(d, r.now)
    {
      hide BucketOk, WalkInv, PickInv, Sends, Expired;
      submap, selected := b, [];
      ghost var ids: seq<string> := [];
      var left := b.Keys;
      WalkStart(b, r);
      while left != {}
        invariant left <= b.Keys && WalkInv(b, r, left, submap) && PickInv(b, r, left, ids, selected)
        decreases |left|
      {
        var id :| id in left;
        SendsLive(b[id], r);
        WalkStep(b, r, left, submap, id);
        PickStep(b, r, left, ids, selected, id);
        left := left - {id};
        if Expired(b[id], r.now) {
          submap := submap - {id};
        } else if Sends(b[id], r) {
          submap := submap[id := Marked(b[id], r.now)];
          selected := selected + [Marked(b[id], r.now)];
          ids := ids + [id];
        }
      }
      WalkEnd(isIP, key, b, next, r, submap, ids, selected);
    }
  }

  /** Entries already walked are as Used leaves them, the others as before. */
  predicate WalkInv(b: Bucket, r: Request, left: set<string>, submap: Bucket) {
    && (forall id <- submap :: id in b)
    && (forall id <- b :: id in submap <==> id in left || !Expired(b[id], r.now))
    && (forall id <- submap :: id in b && submap[id] == if id !in left && Sends(b[id], r) then Marked(b[id], r.now) else b[id])
  }

  predicate Picked(b: Bucket, r: Request, left: set<string>, id: string, e: Entry) {
    id in b && id !in left && Sends(b[id], r) && e == Marked(b[id], r.now)
  }

  predicate PickInv(b: Bucket, r: Request, left: set<string>, ids: seq<string>, selected: seq<Entry>) {
    && |ids| == |selected|
    && (forall i :: 0 <= i < |ids| ==> Picked(b, r, left, ids[i], selected[i]))
    && (forall id <- b :: id !in left && Sends(b[id], r) ==> id in ids)
    && (forall i, j :: 0 <= i < j < |ids| ==> ids[i] != ids[j])
  }

  lemma WalkStart(b: Bucket, r: Request)
    ensures WalkInv(b, r, b.Keys, b) && PickInv(b, r, b.Keys, [], [])
  {
  }

  lemma WalkStep(b: Bucket, r: Request, left: set<string>, submap: Bucket, id: string)
    requires id in left && id in b && WalkInv(b, r, left, submap)
    ensures WalkInv(b, r, left - {id},
      if Expired(b[id], r.now) then submap - {id} else if Sends(b[id], r) then submap[id := Marked(b[id], r.now)] else submap)
  {
    hide Sends, Expired;
    SendsLive(b[id], r);
  }

  lemma PickStep(b: Bucket, r: Request, left: set<string>, ids: seq<string>, selected: seq<Entry>, id: string)
    requires id in left && id in b && PickInv(b, r, left, ids, selected)
    ensures if Sends(b[id], r) then PickInv(b, r, left - {id}, ids + [id], selected + [Marked(b[id], r.now)])
            else PickInv(b, r, left - {id}, ids, selected)
  {
    hide Sends;
    forall i | 0 <= i < |ids| ensures Picked(b, r, left - {id}, ids[i], selected[i]) && ids[i] != id {
      assert Picked(b, r, left, ids[i], selected[i]);
    }
  }

  lemma WalkEnd(isIP: string -> bool, key: string, b: Bucket, next: nat, r: Request, submap: Bucket, ids: seq<string>, selected: seq<Entry>)
    requires BucketOk(isIP, key, b, next) && WalkInv(b, r, {}, submap) && PickInv(b, r, {}, ids, selected)
    ensures submap == Used(b, r) && Numbered(selected)
    ensures forall e :: e in selected <==> exists d <- (set id | id in b && Sends(b[id], r) :: b[id]) :: e == Marked(d, r.now)
  {
    hide Sends, Expired, EntryOk;
    forall i, j | 0 <= i < j < |selected| ensures selected[i].seqNum != selected[j].seqNum {
      assert Picked(b, r, {}, ids[i], selected[i]) && Picked(b, r, {}, ids[j], selected[j]);
      assert ids[i] != ids[j];
    }
    forall e ensures e in selected <==> exists d <- (set id | id in b && Sends(b[id], r) :: b[id]) :: e == Marked(d, r.now) {
      SelectedAre(b, r, ids, selected, e);
    }
  }

  lemma SendsLive(e: Entry, r: Request)
    ensures Sends(e, r) ==> !Expired(e, r.now)
  {
  }

  lemma SelectedAre(b: Bucket, r: Request, ids: seq<string>, selected: seq<Entry>, e: Entry)
    requires PickInv(b, r, {}, ids, selected)
    ensures e in selected <==> exists d <- (set id | id in b && Sends(b[id], r) :: b[id]) :: e == Marked(d, r.now)
  {
    hide Sends;
    var all := set id | id in b && Sends(b[id], r) :: b[id];
    if e in selected {
      var i :| 0 <= i < |selected| && selected[i] == e;
      assert b[ids[i]] in all;
    }
    if d :| d in all && e == Marked(d, r.now) {
      var id :| id in b && Sends(b[id], r) && b[id] == d;
      var i :| 0 <= i < |ids| && ids[i] == id;
      assert selected[i] == e;
    }
  }
}
