/**
 Where a routed request goes: the routing value is a list `host=address,...`; the first pair for
 the request's host decides.
 */
module RoutingValue {
  import opened Strings

  datatype Result = Ok(addr: string) | Malformed

  /** A pair may hold more than one '='; only the first two fields are looked at. */
  predicate IsPair(p: string) { |Split(p, '=')| >= 2 }

  function Key(p: string): string { Split(p, '=')[0] }

  function Address(p: string): string
    requires IsPair(p)
  {
    Split(p, '=')[1]
  }

  /** A pair for `host` that does not route it to itself. */
  predicate Routes(p: string, host: string) {
    IsPair(p) && Key(p) == host && Key(p) != Address(p)
  }

  function WithPort(a: string): string { if ':' in a then a else a + ":80" }

  /** The first pair for the host decides, unless a malformed one comes before it. */
  function Destination(pairs: seq<string>, host: string, originalDst: string): (r: Result)
    ensures originalDst != "" && r.Ok? ==> r.addr != ""
  {
    if pairs == [] then Ok(originalDst)
    else if !IsPair(pairs[0]) then Malformed
    else if Routes(pairs[0], host) then Ok(WithPort(Address(pairs[0])))
    else Destination(pairs[1..], host, originalDst)
  }

  method GetRoutingDestination(value: string, host: string, originalDst: string) returns (r: Result)
    ensures r == Destination(Split(value, ','), host, originalDst)
  {
    var pairs := Split(value, ',');
    var i := 0;
    while i < |pairs|
      invariant 0 <= i <= |pairs|
      invariant Destination(pairs[i..], host, originalDst) == Destination(pairs, host, originalDst)
    {
      var keyval := Split(pairs[i], '=');
      if |keyval| < 2 { return Malformed; }
      if keyval[0] != keyval[1] && host == keyval[0] {
        if ':' !in keyval[1] { keyval := keyval[1 := keyval[1] + ":80"]; }
        return Ok(keyval[1]);
      }
      assert pairs[i..][1..] == pairs[i + 1..];
      i := i + 1;
    }
    r := Ok(originalDst);
  }

  predicate PassedOver(p: string, host: string) { IsPair(p) && !Routes(p, host) }

  /** Malformed exactly when a malformed pair stands before every pair that routes the host. */
  lemma {:induction false} MalformedIff(pairs: seq<string>, host: string, originalDst: string)
    ensures Destination(pairs, host, originalDst) == Malformed
       <==> exists i :: 0 <= i < |pairs| && !IsPair(pairs[i]) && forall j :: 0 <= j < i ==> PassedOver(pairs[j], host)
  {
    if pairs != [] && PassedOver(pairs[0], host) {
      var rest := pairs[1..];
      MalformedIff(rest, host, originalDst);
      if i :| 0 <= i < |rest| && !IsPair(rest[i]) && forall j :: 0 <= j < i ==> PassedOver(rest[j], host) {
        assert !IsPair(pairs[i + 1]);
        forall j | 0 <= j < i + 1 ensures PassedOver(pairs[j], host) { if j > 0 { assert PassedOver(rest[j - 1], host); } }
      }
      if i :| 0 <= i < |pairs| && !IsPair(pairs[i]) && forall j :: 0 <= j < i ==> PassedOver(pairs[j], host) {
        assert i > 0 && !IsPair(rest[i - 1]);
        forall j | 0 <= j < i - 1 ensures PassedOver(rest[j], host) { assert PassedOver(pairs[j + 1], host); }
      }
    }
  }

  /** The first pair that routes the host, with only well-formed pairs before it. */
  predicate Decides(pairs: seq<string>, host: string, i: nat) {
    i < |pairs| && Routes(pairs[i], host) && forall j :: 0 <= j < i ==> PassedOver(pairs[j], host)
  }

  /** The deciding pair's address, with port 80 if it names none; the original one when no pair decides or one is malformed. */
  lemma {:induction false} DestinationIs(pairs: seq<string>, host: string, originalDst: string)
    ensures forall i: nat | Decides(pairs, host, i) ::
      var a := Split(pairs[i], '=')[1];
      Destination(pairs, host, originalDst) == Ok(if ':' in a then a else a + ":80")
    ensures (forall i: nat :: !Decides(pairs, host, i)) ==>
      var r := Destination(pairs, host, originalDst);
      r == Malformed || r == Ok(originalDst)
  {
    if pairs != [] {
      var rest := pairs[1..];
      DestinationIs(rest, host, originalDst);
      forall i: nat | Decides(pairs, host, i) && i > 0 ensures Decides(rest, host, i - 1) && rest[i - 1] == pairs[i] {
        forall j | 0 <= j < i - 1 ensures PassedOver(rest[j], host) { assert PassedOver(pairs[j + 1], host); }
      }
      assert Routes(pairs[0], host) ==> Decides(pairs, host, 0);
      if PassedOver(pairs[0], host) {
        forall i: nat | Decides(rest, host, i) ensures Decides(pairs, host, i + 1) {
          forall j | 0 <= j < i + 1 ensures PassedOver(pairs[j], host) { if j > 0 { assert PassedOver(rest[j - 1], host); } }
        }
      }
      forall i: nat | Decides(pairs, host, i) && i > 0 ensures PassedOver(pairs[0], host) { }
    }
  }

  // ------------------------------------------------- reading back a routing table

  datatype Route = Route(host: string, addr: string)

  predicate Plain(s: string) { Free(s, ',') && Free(s, '=') }

  predicate AllPlain(routes: seq<Route>) { forall r <- routes :: Plain(r.host) && Plain(r.addr) }

  function Print(r: Route): string { Join([r.host, r.addr], '=') }

  function PrintAll(routes: seq<Route>): seq<string> {
    if routes == [] then [] else [Print(routes[0])] + PrintAll(routes[1..])
  }

  /** The first route for the host, leaving out routes from a host to itself. */
  function Lookup(routes: seq<Route>, host: string, originalDst: string): string {
    if routes == [] then originalDst
    else if routes[0].host == host && routes[0].addr != host then WithPort(routes[0].addr)
    else Lookup(routes[1..], host, originalDst)
  }

  lemma PrintIsPair(r: Route)
    requires Plain(r.host) && Plain(r.addr)
    ensures IsPair(Print(r)) && Key(Print(r)) == r.host && Address(Print(r)) == r.addr && Free(Print(r), ',')
  {
    assert AllFree([r.host, r.addr], '=');
    SplitJoin([r.host, r.addr], '=');
    assert Join([r.addr], '=') == r.addr;
    assert [r.host, r.addr][1..] == [r.addr];
  }

  lemma {:induction false} PrintedLookup(routes: seq<Route>, host: string, originalDst: string)
    requires AllPlain(routes)
    ensures |PrintAll(routes)| == |routes| && AllFree(PrintAll(routes), ',')
    ensures Destination(PrintAll(routes), host, originalDst) == Ok(Lookup(routes, host, originalDst))
  {
    if routes != [] {
      PrintIsPair(routes[0]);
      PrintedLookup(routes[1..], host, originalDst);
      assert PrintAll(routes)[1..] == PrintAll(routes[1..]);
    }
  }

  /** A printed routing table routes every host as the table says. */
  lemma RoutingRoundTrip(routes: seq<Route>, host: string, originalDst: string)
    requires routes != [] && AllPlain(routes)
    ensures Destination(Split(Join(PrintAll(routes), ','), ','), host, originalDst) == Ok(Lookup(routes, host, originalDst))
  {
    PrintedLookup(routes, host, originalDst);
    SplitJoin(PrintAll(routes), ',');
  }

  predicate Leads(routes: seq<Route>, host: string, k: nat) {
    && k < |routes| && routes[k].host == host && routes[k].addr != host
    && forall j :: 0 <= j < k ==> routes[j].host != host || routes[j].addr == host
  }

  /** A lookup is the first route that leads away from the host. */
  lemma {:induction false} LookupIs(routes: seq<Route>, host: string, originalDst: string)
    ensures forall k: nat | Leads(routes, host, k) ::
      var a := routes[k].addr;
      Lookup(routes, host, originalDst) == if ':' in a then a else a + ":80"
    ensures (forall r <- routes :: r.host != host || r.addr == host) ==> Lookup(routes, host, originalDst) == originalDst
  {
    if routes != [] {
      LookupIs(routes[1..], host, originalDst);
      forall k: nat | Leads(routes, host, k) && k > 0 ensures Leads(routes[1..], host, k - 1) { }
    }
  }
}
