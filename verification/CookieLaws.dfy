/**
 What a cookie jar is for: a cookie goes out with the requests it was set for, while it lives, and
 with no others (sections 5.3 and 5.4 of RFC 6265).
 */
module CookieLaws {
  import opened Basics
  import opened JarKeys
  import opened CookieJar

  // ------------------------------------------------------------- what a cookie asks for

  ghost predicate Below(host: string, domain: string) { exists x: string :: host == x + "." + domain }

  lemma DotSuffixIsBelow(host: string, domain: string)
    ensures HasDotSuffix(host, domain) <==> Below(host, domain)
  {
    var n := |host| - |domain| - 1;
    if HasDotSuffix(host, domain) { assert host == host[..n] + "." + domain; }
    if x: string :| host == x + "." + domain { assert n == |x| && host[n + 1..] == domain; }
  }

  /** The domain attribute in lower case, without a leading dot. */
  function NamedDomain(c: Cookie): string
    requires c.domain != ""
  {
    Lower(if c.domain[0] == '.' then c.domain[1..] else c.domain)
  }

  const Capitals := "ABCDEFGHIJKLMNOPQRSTUVWXYZ"
  const Smalls := "abcdefghijklmnopqrstuvwxyz"

  /** Lower case letter by letter. */
  lemma LowerLetters(c: char, i: nat)
    requires i < 26
    ensures LowerChar(Capitals[i]) == Smalls[i] && (c !in Capitals ==> LowerChar(c) == c)
  {
    if 'A' <= c <= 'Z' { assert Capitals[c as int - 65] == c; }
  }

  /** A host sets cookies for itself and, unless it is an address, for domains above it. */
  ghost predicate MaySet(isIP: string -> bool, c: Cookie, host: string) {
    || c.domain == ""
    || (!isIP(host) && var d := NamedDomain(c); d != "" && d[0] != '.' && d[|d| - 1] != '.' && (host == d || Below(host, d)))
  }

  function DomainOf(c: Cookie, host: string): string { if c.domain == "" then host else NamedDomain(c) }

  function CookiePath(c: Cookie, path: string): string {
    if c.path != "" && c.path[0] == '/' then c.path else DefaultPath(path)
  }

  ghost predicate UnderPath(dir: string, path: string)
    requires dir != ""
  {
    path == dir || exists rest: string :: rest != "" && path == dir + rest && (dir[|dir| - 1] == '/' || rest[0] == '/')
  }

  /** The request is to the cookie's host or below its domain, under its path, and secure if the cookie is. */
  ghost predicate Reaches(c: Cookie, host: string, path: string, r: Request) {
    && (r.host == DomainOf(c, host) || (c.domain != "" && Below(r.host, NamedDomain(c))))
    && CookiePath(c, path) != "" && UnderPath(CookiePath(c, path), if r.path == "" then "/" else r.path)
    && (c.secure ==> r.https)
  }

  /** Max-Age comes before Expires; without either a cookie lives as long as the jar. */
  predicate Lives(c: Cookie, now: int, at: int) {
    if c.maxAge != 0 then at < now + c.maxAge else c.expires.None? || at < c.expires.value
  }

  function NameOf(c: Cookie, host: string, path: string): string {
    DomainOf(c, host) + ";" + CookiePath(c, path) + ";" + c.name
  }

  // ------------------------------------------------------------------ what is stored

  lemma DomainIs(isIP: string -> bool, c: Cookie, host: string)
    ensures DomainAndType(isIP, host, c.domain).Domain? <==> MaySet(isIP, c, host)
    ensures MaySet(isIP, c, host) ==> DomainAndType(isIP, host, c.domain) == Domain(DomainOf(c, host), c.domain == "")
  {
    if c.domain != "" {
      var d := if c.domain[0] == '.' then c.domain[1..] else c.domain;
      if d != "" { assert Lower(d)[0] == LowerChar(d[0]); }
      DotSuffixIsBelow(host, Lower(d));
      hide HasDotSuffix, Below;
    }
  }

  /** What a cookie's entry says of its requests. */
  ghost predicate Holds(e: Entry, c: Cookie, host: string, path: string, now: int) {
    && e.name == c.name && e.value == c.value && e.domain == DomainOf(c, host) && e.path == CookiePath(c, path)
    && e.secure == c.secure && e.httpOnly == c.httpOnly && e.hostOnly == (c.domain == "")
    && forall at: int :: Expired(e, at) <==> !Lives(c, now, at)
  }

  lemma MadeIs(isIP: string -> bool, c: Cookie, now: int, path: string, host: string)
    ensures var made := NewEntry(isIP, c, now, DefaultPath(path), host);
      && (made.Refused? <==> !MaySet(isIP, c, host))
      && (made.Keeps? <==> MaySet(isIP, c, host) && Lives(c, now, now))
      && (made.Keeps? ==> Holds(made.e, c, host, path, now))
      && (!made.Refused? ==> Id(made.e) == NameOf(c, host, path))
  {
    DomainIs(isIP, c, host);
    hide DomainAndType, MaySet, DefaultPath, NamedDomain;
  }

  /** Buckets of other keys, and other entries of this one, are as before. */
  predicate OthersSame(b: Bucket, b1: Bucket, id: string) {
    && (forall x <- b :: x != id ==> x in b1 && b1[x] == b[x])
    && (forall x <- b1 :: x != id ==> x in b)
  }

  lemma PutBucketIs(s: State, key: string, b: Bucket)
    ensures BucketOf(PutBucket(s, key, b), key) == b
    ensures forall k: string :: k != key ==> BucketOf(PutBucket(s, key, b), k) == BucketOf(s, k)
  {
  }

  lemma SetsOne(isIP: string -> bool, s: State, host: string, path: string, c: Cookie, now: int)
    ensures var key := JarKey(isIP, host);
      var (b, next) := SetOne(isIP, BucketOf(s, key), s.nextSeqNum, c, now, DefaultPath(path), host);
      SetCookies(isIP, s, host, path, [c], now) == PutBucket(s, key, b).(nextSeqNum := next)
  {
    hide SetOne, JarKey, DefaultPath;
    assert [c][..0] == [];
    assert SetAll(isIP, BucketOf(s, JarKey(isIP, host)), s.nextSeqNum, [], now, DefaultPath(path), host) == (BucketOf(s, JarKey(isIP, host)), s.nextSeqNum);
  }

  /**
   A cookie that the host may set is stored as it was given, in place of the one of the same domain,
   path and name, whose place in the order it keeps; one that has expired already removes that one.
   */
  lemma SetStores(isIP: string -> bool, s: State, host: string, path: string, c: Cookie, now: int)
    requires MaySet(isIP, c, host)
    ensures var key, id := JarKey(isIP, host), NameOf(c, host, path);
      var b, b1 := BucketOf(s, key), BucketOf(SetCookies(isIP, s, host, path, [c], now), key);
      && OthersSame(b, b1, id)
      && (id in b1 <==> Lives(c, now, now))
      && (id in b1 ==> Holds(b1[id], c, host, path, now))
      && (id in b1 && id in b ==> b1[id].creation == b[id].creation && b1[id].seqNum == b[id].seqNum)
      && (id in b1 && id !in b ==> b1[id].creation == now && b1[id].seqNum == s.nextSeqNum)
  {
    MadeIs(isIP, c, now, path, host);
    SetsOne(isIP, s, host, path, c, now);
    hide JarKey, NewEntry, MaySet, NameOf, DefaultPath, PutBucket, Lives, SetCookies, DomainOf, CookiePath, Id;
    var key := JarKey(isIP, host);
    var (b1, next) := SetOne(isIP, BucketOf(s, key), s.nextSeqNum, c, now, DefaultPath(path), host);
    PutBucketIs(s, key, b1);
    assert BucketOf(PutBucket(s, key, b1).(nextSeqNum := next), key) == BucketOf(PutBucket(s, key, b1), key);
  }

  /** A cookie that the host may not set changes nothing. */
  lemma RefusedIsNothing(isIP: string -> bool, s: State, host: string, path: string, c: Cookie, now: int)
    requires Inv(isIP, s) && !MaySet(isIP, c, host)
    ensures SetCookies(isIP, s, host, path, [c], now) == s
  {
    MadeIs(isIP, c, now, path, host);
    SetsOne(isIP, s, host, path, c, now);
    hide JarKey, NewEntry, MaySet, DefaultPath, BucketOk, Apart, SetCookies;
    var key := JarKey(isIP, host);
    if key in s.entries { assert s.entries[key := s.entries[key]] == s.entries; } else { assert s.entries - {key} == s.entries; }
  }

  // ---------------------------------------------------------------- what requests get

  ghost predicate InAnswer(isIP: string -> bool, s: State, r: Request, id: string, value: string) {
    exists e <- Found(isIP, s, r) :: Id(e) == id && e.value == value
  }

  lemma FoundIs(isIP: string -> bool, s: State, r: Request, e: Entry)
    requires Inv(isIP, s)
    ensures var b := BucketOf(s, JarKey(isIP, r.host));
      e in Found(isIP, s, r) <==> Id(e) in b && b[Id(e)] == e && Sends(e, r)
  {
    BucketOfOk(isIP, s, JarKey(isIP, r.host));
    hide Inv, JarKey, Sends, Id, EntryOk, BucketOf;
  }

  lemma SendsIs(e: Entry, c: Cookie, host: string, path: string, now: int, r: Request)
    requires Holds(e, c, host, path, now) && e.path != ""
    ensures Sends(e, r) <==> Reaches(c, host, path, r) && Lives(c, now, r.now)
  {
    PathMatchIsDirectory(e, PathOf(r));
    DotSuffixIsBelow(r.host, e.domain);
    hide PathMatch, HasDotSuffix, Below, DefaultPath, Lives, NamedDomain;
  }

  /**
   Set, then ask: a request that looks in the cookie's bucket gets the cookie, with its value, if and
   only if it is one the cookie is meant for and comes before the cookie expires.
   */
  lemma SetThenAsk(isIP: string -> bool, s: State, host: string, path: string, c: Cookie, now: int, r: Request)
    requires Inv(isIP, s) && MaySet(isIP, c, host) && JarKey(isIP, r.host) == JarKey(isIP, host) && now <= r.now
    ensures var t, id := SetCookies(isIP, s, host, path, [c], now), NameOf(c, host, path);
      && (InAnswer(isIP, t, r, id, c.value) <==> Reaches(c, host, path, r) && Lives(c, now, r.now))
      && (forall e <- Found(isIP, t, r) :: Id(e) == id ==> e.name == c.name && e.value == c.value)
  {
    var t, id := SetCookies(isIP, s, host, path, [c], now), NameOf(c, host, path);
    StepOk(isIP, s, Set(host, path, [c], now));
    SetStores(isIP, s, host, path, c, now);
    LivesOn(c, now, r.now);
    hide Inv, JarKey, MaySet, NameOf, SetCookies, Found, Sends, Lives, Reaches, Id, OthersSame, BucketOf;
    var b := BucketOf(t, JarKey(isIP, host));
    if id in b {
      var e := b[id];
      StoredId(isIP, t, JarKey(isIP, host), id);
      FoundIs(isIP, t, r, e);
      SendsIs(e, c, host, path, now, r);
    }
    forall e <- Found(isIP, t, r) | Id(e) == id ensures id in b && e == b[id] { FoundIs(isIP, t, r, e); }
  }

  lemma StoredId(isIP: string -> bool, s: State, key: string, id: string)
    requires Inv(isIP, s) && id in BucketOf(s, key)
    ensures Id(BucketOf(s, key)[id]) == id && BucketOf(s, key)[id].path != ""
  {
    BucketOfOk(isIP, s, key);
    hide Id, Fits, Inv;
  }

  lemma LivesOn(c: Cookie, now: int, at: int)
    requires now <= at
    ensures Lives(c, now, at) ==> Lives(c, now, now)
  {
  }

  /** The bucket is the right one for the host itself, and for all named hosts when the domain has an inner dot. */
  lemma LooksThere(isIP: string -> bool, c: Cookie, host: string, path: string, r: Request)
    requires MaySet(isIP, c, host) && Reaches(c, host, path, r)
    requires c.domain == "" || (Dotted(NamedDomain(c)) && !isIP(r.host))
    ensures JarKey(isIP, r.host) == JarKey(isIP, host)
  {
    if c.domain != "" {
      var d := NamedDomain(c);
      DotSuffixIsBelow(host, d);
      DotSuffixIsBelow(r.host, d);
      if host != d { KeyOfSuffix(host, d); }
      if r.host != d { KeyOfSuffix(r.host, d); }
    }
  }

  /** Every other cookie answers as before, whatever the request. */
  lemma OthersAnswer(isIP: string -> bool, s: State, host: string, path: string, c: Cookie, now: int, r: Request, e: Entry)
    requires Inv(isIP, s) && Id(e) != NameOf(c, host, path)
    ensures e in Found(isIP, SetCookies(isIP, s, host, path, [c], now), r) <==> e in Found(isIP, s, r)
  {
    var t := SetCookies(isIP, s, host, path, [c], now);
    if MaySet(isIP, c, host) {
      StepOk(isIP, s, Set(host, path, [c], now));
      SetStores(isIP, s, host, path, c, now);
      OtherBuckets(isIP, s, host, path, c, now);
      FoundIs(isIP, t, r, e);
      FoundIs(isIP, s, r, e);
      hide Inv, JarKey, MaySet, NameOf, SetCookies, Found, Sends, Lives, Id, BucketOf, Holds;
    } else {
      RefusedIsNothing(isIP, s, host, path, c, now);
    }
  }

  lemma OtherBuckets(isIP: string -> bool, s: State, host: string, path: string, c: Cookie, now: int)
    ensures forall k: string :: k != JarKey(isIP, host) ==> BucketOf(SetCookies(isIP, s, host, path, [c], now), k) == BucketOf(s, k)
  {
    hide JarKey, SetAll, DefaultPath;
  }

  /** Several cookies are set one after the other. */
  lemma SetsInTurn(isIP: string -> bool, s: State, host: string, path: string, cs: seq<Cookie>, c: Cookie, now: int)
    ensures SetCookies(isIP, s, host, path, cs + [c], now) == SetCookies(isIP, SetCookies(isIP, s, host, path, cs, now), host, path, [c], now)
  {
    var key, all := JarKey(isIP, host), cs + [c];
    assert all[..|all| - 1] == cs;
    var (b, next) := SetAll(isIP, BucketOf(s, key), s.nextSeqNum, cs, now, DefaultPath(path), host);
    var t := SetCookies(isIP, s, host, path, cs, now);
    assert t == PutBucket(s, key, b).(nextSeqNum := next);
    PutBucketIs(s, key, b);
    assert BucketOf(t, key) == b;
    SetsOne(isIP, t, host, path, c, now);
    hide JarKey, SetAll, SetOne, DefaultPath;
  }

  /** A request takes nothing from later ones: they find the same entries, but for the time of use. */
  lemma AskKeeps(isIP: string -> bool, s: State, q: Request, r: Request, e: Entry)
    requires Inv(isIP, s) && q.now <= r.now
    ensures var t := AfterRequest(isIP, s, q);
      && (e in Found(isIP, s, r) ==> e in Found(isIP, t, r) || Marked(e, q.now) in Found(isIP, t, r))
      && (e in Found(isIP, t, r) ==> exists d <- Found(isIP, s, r) :: e == d || e == Marked(d, q.now))
  {
    var t := AfterRequest(isIP, s, q);
    StepOk(isIP, s, Ask(q));
    var key := JarKey(isIP, q.host);
    PutBucketIs(s, key, Used(BucketOf(s, key), q));
    FoundIs(isIP, s, r, e);
    FoundIs(isIP, t, r, e);
    FoundIs(isIP, t, r, Marked(e, q.now));
    SendsMarked(e, q, r);
    if e in Found(isIP, t, r) {
      var b := BucketOf(s, JarKey(isIP, r.host));
      assert Id(e) in b;
      StoredId(isIP, s, JarKey(isIP, r.host), Id(e));
      var d := b[Id(e)];
      SendsMarked(d, q, r);
      hide Inv, JarKey, Sends, Expired, Id, Found, BucketOf;
      FoundIs(isIP, s, r, d);
    }
  }

  lemma SendsMarked(e: Entry, q: Request, r: Request)
    requires q.now <= r.now
    ensures Sends(Marked(e, q.now), r) <==> Sends(e, r)
    ensures Id(Marked(e, q.now)) == Id(e)
    ensures Sends(e, r) ==> !Expired(e, q.now)
  {
    hide HasDotSuffix;
  }

  /** Section 5.4 of RFC 6265: longer paths come first, and of equally long ones the earlier created. */
  lemma OrderIs(s: seq<Entry>)
    ensures Sorted(s) <==> forall i, j :: 0 <= i < j < |s| ==>
      && |s[i].path| >= |s[j].path|
      && (|s[i].path| == |s[j].path| ==> s[i].creation <= s[j].creation)
      && (|s[i].path| == |s[j].path| && s[i].creation == s[j].creation ==> s[i].seqNum < s[j].seqNum)
  {
  }

  // ------------------------------------------------------------ which cookies are others

  lemma CutAt(a: string, x: string, b: string, y: string)
    requires ';' !in a && ';' !in b && a + ";" + x == b + ";" + y
    ensures a == b && x == y
  {
    var s, t := a + ";" + x, b + ";" + y;
    assert forall i :: 0 <= i < |a| ==> s[i] == a[i];
    assert forall i :: 0 <= i < |b| ==> s[i] == b[i];
    assert s[|a|] == ';' && s[|b|] == ';';
    assert |a| == |b|;
    assert a == s[..|a|] && b == t[..|b|];
    assert x == s[|a| + 1..] && y == t[|b| + 1..];
  }

  /** Without semicolons in domain and path, different cookies have different ids ... */
  lemma IdIsTriple(d: Entry, e: Entry)
    requires ';' !in d.domain && ';' !in e.domain && ';' !in d.path && ';' !in e.path && Id(d) == Id(e)
    ensures d.domain == e.domain && d.path == e.path && d.name == e.name
  {
    assert Id(d) == d.domain + ";" + (d.path + ";" + d.name);
    assert Id(e) == e.domain + ";" + (e.path + ";" + e.name);
    CutAt(d.domain, d.path + ";" + d.name, e.domain, e.path + ";" + e.name);
    CutAt(d.path, d.name, e.path, e.name);
  }

  /** ... and with one in a path two cookies may share an id, so that one takes the other's place. */
  lemma IdsCollide(d: Entry, e: Entry)
    requires d.domain == e.domain && d.path == "/a;b" && d.name == "c" && e.path == "/a" && e.name == "b;c"
    ensures Id(d) == Id(e) && d.path != e.path
  {
    assert "/a;b" + ";" + "c" == "/a" + ";" + "b;c";
    assert Id(d) == d.domain + ";" + ("/a;b" + ";" + "c") && Id(e) == e.domain + ";" + ("/a" + ";" + "b;c");
  }
}
