/**
 The Cookie header of a request: written by AddCookie, read by readCookies. The sidecar reads its
 routing cookie this way. Characters are bytes; space is ASCII white space.
 */
module CookieHeader {
  import opened Basics
  import opened Strings

  datatype Cookie = Cookie(name: string, value: string)

  // ----------------------------------------------------------------------- bytes

  predicate ValidValueByte(b: char) {
    ' ' <= b <= '~' && b != '\"' && b != ';' && b != '\\'
  }

  predicate IsToken(c: char) {
    'a' <= c <= 'z' || 'A' <= c <= 'Z' || '0' <= c <= '9' || c in "!#$%&'*+-.^_`|~"
  }

  predicate NameValid(s: string) { s != "" && forall c <- s :: IsToken(c) }

  predicate ValueValid(s: string) { forall c <- s :: ValidValueByte(c) }

  predicate IsSpace(c: char) {
    c == ' ' || c == '\t' || c == '\n' || c == '\r' || c == 11 as char || c == 12 as char
  }

  /**
   The bytes of section 4.1.1 of RFC 6265 and space and comma, the token characters of section
   3.2.6 of RFC 7230, that is the visible ones but the separators, and ASCII white space, by their numbers.
   */
  lemma ByteClasses(c: char)
    ensures ValidValueByte(c) <==> 0x20 <= c as int < 0x7f && c as int !in {0x22, 0x3b, 0x5c}
    ensures IsToken(c) <==> 0x21 <= c as int < 0x7f && c !in {'(', ')', '<', '>', '@', ',', ';', ':', '\\', '\"', '/', '[', ']', '?', '=', '{', '}'}
    ensures IsSpace(c) <==> c as int in {9, 10, 11, 12, 13, 32}
  {
    assert c in "!#$%&'*+-.^_`|~" <==> c in {'!', '#', '$', '%', '&', '\'', '*', '+', '-', '.', '^', '_', '`', '|', '~'};
  }

  function TrimLeft(s: string): string {
    if s != "" && IsSpace(s[0]) then TrimLeft(s[1..]) else s
  }

  function TrimRight(s: string): string {
    if s != "" && IsSpace(s[|s| - 1]) then TrimRight(s[..|s| - 1]) else s
  }

  function TrimSpace(s: string): string { TrimRight(TrimLeft(s)) }

  // --------------------------------------------------------------------- printing

  /** The valid bytes of a value. */
  function ValidBytes(v: string): (r: string)
    ensures ValueValid(r) && (ValueValid(v) ==> r == v)
  {
    if v == "" then ""
    else
      var r := ValidBytes(v[..|v| - 1]);
      if ValidValueByte(v[|v| - 1]) then r + [v[|v| - 1]] else r
  }

  method SanitizeOrWarn(v: string) returns (r: string)
    ensures r == ValidBytes(v)
  {
    var ok := true;
    var i := 0;
    while i < |v|
      invariant 0 <= i <= |v| && ok && ValueValid(v[..i])
    {
      if !ValidValueByte(v[i]) {
        ok := false;
        break;
      }
      assert v[..i + 1] == v[..i] + [v[i]];
      i := i + 1;
    }
    if ok {
      assert v[..i] == v;
      return v;
    }
    r := "";
    i := 0;
    while i < |v|
      invariant 0 <= i <= |v| && r == ValidBytes(v[..i])
    {
      assert v[..i + 1][..i] == v[..i];
      if ValidValueByte(v[i]) { r := r + [v[i]]; }
      i := i + 1;
    }
    assert v[..i] == v;
  }

  /** Values with a space or a comma are quoted. */
  function PrintValue(v: string): string {
    var r := ValidBytes(v);
    if ' ' in r || ',' in r then "\"" + r + "\"" else r
  }

  /** Line breaks in a name become dashes. */
  function PrintName(n: string): (r: string)
    ensures NameValid(n) ==> r == n
  {
    if n == "" then ""
    else
      assert NameValid(n) ==> IsToken(n[0]) && (n[1..] == "" || NameValid(n[1..]));
      [if n[0] == '\n' || n[0] == '\r' then '-' else n[0]] + PrintName(n[1..])
  }

  /** Of two values one after the other the valid bytes are those of each, and of one byte it is the byte if it is valid. */
  lemma {:induction false} ValidBytesConcat(v: string, w: string, c: char)
    ensures ValidBytes(v + w) == ValidBytes(v) + ValidBytes(w)
    ensures ValidBytes([c]) == if ValidValueByte(c) then [c] else ""
  {
    hide ValidValueByte;
    assert [c][..0] == "";
    if w == "" {
      assert v + w == v;
    } else {
      ValidBytesConcat(v, w[..|w| - 1], c);
      assert (v + w)[..|v + w| - 1] == v + w[..|w| - 1];
    }
  }

  /** A value is quoted if and only if a space or a comma remains; in a name only line breaks change, to dashes. */
  lemma {:induction false} PrintedIs(n: string, v: string)
    ensures var r, p := ValidBytes(v), PrintValue(v);
      if exists c <- r :: c in {' ', ','} then p == "\"" + r + "\"" else p == r
    ensures |PrintName(n)| == |n|
    ensures forall i :: 0 <= i < |n| ==> PrintName(n)[i] == if n[i] in {'\n', '\r'} then '-' else n[i]
  {
    if n != "" { PrintedIs(n[1..], v); }
  }

  function Print(c: Cookie): string { PrintName(c.name) + "=" + PrintValue(c.value) }

  // ---------------------------------------------------------------------- reading

  function ParseValue(raw: string): Option<string> {
    var v := if |raw| > 1 && raw[0] == '\"' && raw[|raw| - 1] == '\"' then raw[1..|raw| - 1] else raw;
    if ValueValid(v) then Some(v) else None
  }

  method ParseCookieValue(raw: string) returns (r: Option<string>)
    ensures r == ParseValue(raw)
  {
    var v := raw;
    if |raw| > 1 && raw[0] == '\"' && raw[|raw| - 1] == '\"' { v := raw[1..|raw| - 1]; }
    var i := 0;
    while i < |v|
      invariant 0 <= i <= |v| && forall c <- v[..i] :: ValidValueByte(c)
    {
      if !ValidValueByte(v[i]) {
        assert v[i] in v;
        return None;
      }
      assert v[..i + 1] == v[..i] + [v[i]];
      i := i + 1;
    }
    assert v[..i] == v;
    r := Some(v);
  }

  /** Position of the first '=', or -1. */
  function Equals(s: string): (r: int)
    ensures -1 <= r < |s|
  {
    if s == "" then -1
    else if s[0] == '=' then 0
    else if Equals(s[1..]) < 0 then -1
    else Equals(s[1..]) + 1
  }

  /** The cookie in one part of a header line, if there is one and it passes the filter. */
  function ReadPart(part: string, filter: string): (r: seq<Cookie>)
    ensures forall c <- r :: NameValid(c.name) && ValueValid(c.value) && (filter == "" || c.name == filter)
  {
    var p := TrimSpace(part);
    var j := Equals(p);
    var name := if j >= 0 then p[..j] else p;
    var val := ParseValue(if j >= 0 then p[j + 1..] else "");
    if p == "" || !NameValid(name) || (filter != "" && filter != name) || val.None? then [] else [Cookie(name, val.value)]
  }

  function ReadParts(parts: seq<string>, filter: string): (r: seq<Cookie>)
    ensures forall c <- r :: NameValid(c.name) && ValueValid(c.value) && (filter == "" || c.name == filter)
  {
    if parts == [] then [] else ReadParts(parts[..|parts| - 1], filter) + ReadPart(parts[|parts| - 1], filter)
  }

  function ReadLines(lines: seq<string>, filter: string): (r: seq<Cookie>)
    ensures forall c <- r :: NameValid(c.name) && ValueValid(c.value) && (filter == "" || c.name == filter)
  {
    if lines == [] then []
    else ReadLines(lines[..|lines| - 1], filter) + ReadParts(Split(TrimSpace(lines[|lines| - 1]), ';'), filter)
  }

  method ReadCookies(lines: seq<string>, filter: string) returns (cookies: seq<Cookie>)
    ensures cookies == ReadLines(lines, filter)
  {
    hide ReadParts, Split, TrimSpace;
    cookies := [];
    var k := 0;
    while k < |lines|
      invariant 0 <= k <= |lines| && cookies == ReadLines(lines[..k], filter)
    {
      assert lines[..k + 1][..k] == lines[..k];
      var parts := Split(TrimSpace(lines[k]), ';');
      if |parts| == 1 && parts[0] == "" {
        assert parts == [""];
        ReadPartsOne("", filter);
        ReadNothing(filter);
      } else {
        var more := ReadAllParts(parts, filter);
        cookies := cookies + more;
      }
      k := k + 1;
    }
    assert lines[..k] == lines;
  }

  method ReadAllParts(parts: seq<string>, filter: string) returns (cookies: seq<Cookie>)
    ensures cookies == ReadParts(parts, filter)
  {
    hide ReadPart;
    cookies := [];
    var i := 0;
    while i < |parts|
      invariant 0 <= i <= |parts| && cookies == ReadParts(parts[..i], filter)
    {
      assert parts[..i + 1][..i] == parts[..i];
      var more := ReadOne(parts[i], filter);
      cookies := cookies + more;
      i := i + 1;
    }
    assert parts[..i] == parts;
  }

  method ReadOne(part: string, filter: string) returns (r: seq<Cookie>)
    ensures r == ReadPart(part, filter)
  {
    var p := TrimSpace(part);
    if |p| == 0 { return []; }
    var name, val := p, "";
    var j := Equals(p);
    if j >= 0 { name, val := p[..j], p[j + 1..]; }
    if !NameValid(name) { return []; }
    if filter != "" && filter != name { return []; }
    var v := ParseCookieValue(val);
    if v.None? { return []; }
    r := [Cookie(name, v.value)];
  }

  // -------------------------------------------------------------- white space

  lemma {:induction false} TrimLeftEnd(s: string, c: char)
    requires IsSpace(c)
    ensures TrimLeft(s + [c]) == if TrimLeft(s) == "" then "" else TrimLeft(s) + [c]
  {
    if s == "" {
      assert (s + [c])[1..] == "";
    } else if IsSpace(s[0]) {
      assert (s + [c])[1..] == s[1..] + [c];
      TrimLeftEnd(s[1..], c);
    }
  }

  lemma TrimEnd(s: string, c: char)
    requires IsSpace(c)
    ensures TrimSpace(s + [c]) == TrimSpace(s)
  {
    TrimLeftEnd(s, c);
    if TrimLeft(s) != "" { assert (TrimLeft(s) + [c])[..|TrimLeft(s)|] == TrimLeft(s); }
  }

  lemma TrimStart(s: string, c: char)
    requires IsSpace(c)
    ensures TrimSpace([c] + s) == TrimSpace(s)
  {
    assert ([c] + s)[1..] == s;
  }

  lemma {:induction false} ReadPartsConcat(a: seq<string>, b: seq<string>, filter: string)
    ensures ReadParts(a + b, filter) == ReadParts(a, filter) + ReadParts(b, filter)
  {
    hide ReadPart;
    if b == [] {
      assert a + b == a;
    } else {
      var last := |b| - 1;
      assert (a + b)[..|a + b| - 1] == a + b[..last];
      ReadPartsConcat(a, b[..last], filter);
    }
  }

  lemma ReadPartsOne(p: string, filter: string)
    ensures ReadParts([p], filter) == ReadPart(p, filter)
  {
    assert [p][..0] == [];
  }

  /** Spaces around a line do not matter, as every part is trimmed again. */
  lemma ReadStart(s: string, c: char, filter: string)
    requires IsSpace(c)
    ensures ReadParts(Split([c] + s, ';'), filter) == ReadParts(Split(s, ';'), filter)
  {
    hide Split, Join, AllFree, TrimSpace, ReadParts;
    SplitChar(c, s, ';');
    var t := Split(s, ';');
    TrimStart(t[0], c);
    assert t == [t[0]] + t[1..];
    ReadPartsConcat([[c] + t[0]], t[1..], filter);
    ReadPartsConcat([t[0]], t[1..], filter);
    ReadPartsOne([c] + t[0], filter);
    ReadPartsOne(t[0], filter);
  }

  lemma ReadEnd(s: string, c: char, filter: string)
    requires IsSpace(c)
    ensures ReadParts(Split(s + [c], ';'), filter) == ReadParts(Split(s, ';'), filter)
  {
    hide Split, Join, AllFree, TrimSpace, ReadParts;
    SplitEnd(s, c, ';');
    var t := Split(s, ';');
    var last := |t| - 1;
    TrimEnd(t[last], c);
    assert AppendLast(t, c) == t[..last] + [t[last] + [c]];
    assert t == t[..last] + [t[last]];
    ReadPartsConcat(t[..last], [t[last] + [c]], filter);
    ReadPartsConcat(t[..last], [t[last]], filter);
    ReadPartsOne(t[last] + [c], filter);
    ReadPartsOne(t[last], filter);
  }

  lemma {:induction false} ReadTrimLeft(s: string, filter: string)
    ensures ReadParts(Split(TrimLeft(s), ';'), filter) == ReadParts(Split(s, ';'), filter)
  {
    hide Split, ReadParts;
    if s != "" && IsSpace(s[0]) {
      ReadTrimLeft(s[1..], filter);
      ReadStart(s[1..], s[0], filter);
      assert s == [s[0]] + s[1..];
    }
  }

  lemma {:induction false} ReadTrimRight(s: string, filter: string)
    ensures ReadParts(Split(TrimRight(s), ';'), filter) == ReadParts(Split(s, ';'), filter)
  {
    hide Split, ReadParts;
    if s != "" && IsSpace(s[|s| - 1]) {
      ReadTrimRight(s[..|s| - 1], filter);
      ReadEnd(s[..|s| - 1], s[|s| - 1], filter);
      assert s == s[..|s| - 1] + [s[|s| - 1]];
    }
  }

  lemma ReadTrimmed(s: string, filter: string)
    ensures ReadParts(Split(TrimSpace(s), ';'), filter) == ReadParts(Split(s, ';'), filter)
  {
    ReadTrimLeft(s, filter);
    ReadTrimRight(TrimLeft(s), filter);
  }

  // ----------------------------------------------------- one printed cookie

  lemma {:induction false} EqualsAfter(n: string, v: string)
    requires Free(n, '=')
    ensures Equals(n + "=" + v) == |n|
  {
    var s := n + "=" + v;
    if n != "" {
      assert s[1..] == n[1..] + "=" + v;
      EqualsAfter(n[1..], v);
    }
  }

  lemma ParsePrinted(v: string)
    ensures ParseValue(PrintValue(v)) == Some(ValidBytes(v))
  {
    var r := ValidBytes(v);
    if ' ' in r || ',' in r {
      assert PrintValue(v)[1..|PrintValue(v)| - 1] == r;
    } else if r != "" {
      assert r[0] in r && ValidValueByte(r[0]);
    }
  }

  /** A printed value ends in no space: one that would is quoted. */
  lemma PrintedEnds(v: string)
    ensures var p := PrintValue(v); (p != "" ==> !IsSpace(p[|p| - 1])) && Free(p, ';')
  {
    var r := ValidBytes(v);
    if r != "" { assert r[|r| - 1] in r && ValidValueByte(r[|r| - 1]); }
  }

  lemma TokenFacts(n: string)
    requires NameValid(n)
    ensures n != "" && !IsSpace(n[0]) && Free(n, ';') && Free(n, '=')
  {
    assert IsToken(n[0]);
  }

  lemma PrintedPart(c: Cookie)
    requires NameValid(c.name)
    ensures TrimSpace(" " + Print(c)) == Print(c) == TrimSpace(Print(c)) && Free(" " + Print(c), ';') && Free(Print(c), ';')
  {
    hide PrintValue, NameValid;
    TokenFacts(c.name);
    PrintedEnds(c.value);
    var s := Print(c);
    assert PrintName(c.name) == c.name;
    assert s[0] == c.name[0];
    assert s[|s| - 1] == if PrintValue(c.value) == "" then '=' else PrintValue(c.value)[|PrintValue(c.value)| - 1];
    TrimStart(s, ' ');
  }

  function Kept(c: Cookie, filter: string): seq<Cookie> {
    if filter == "" || filter == c.name then [Cookie(c.name, ValidBytes(c.value))] else []
  }

  lemma ReadPrinted(c: Cookie, filter: string)
    requires NameValid(c.name)
    ensures ReadPart(" " + Print(c), filter) == ReadPart(Print(c), filter) == Kept(c, filter)
  {
    hide PrintValue, ParseValue, TrimSpace, NameValid, Equals;
    PrintedPart(c);
    TokenFacts(c.name);
    ParsePrinted(c.value);
    var s := Print(c);
    assert PrintName(c.name) == c.name;
    EqualsAfter(c.name, PrintValue(c.value));
    assert s[..|c.name|] == c.name && s[|c.name| + 1..] == PrintValue(c.value);
  }

  /**
   Any part of a header line: what stands before its first '=' is the name and what follows the value, with
   one pair of quotes taken off; without '=' the value is empty. An invalid name or value drops the part.
   */
  lemma PartIs(n: string, v: string, filter: string)
    requires Free(n, '=') && n != "" && !IsSpace(n[0]) && !IsSpace(n[|n| - 1]) && (v != "" ==> !IsSpace(v[|v| - 1]))
    ensures var wanted := (filter == "" || filter == n) && NameValid(n);
      && ReadPart(n, filter) == (if wanted then [Cookie(n, "")] else [])
      && (v == "" || v[0] != '\"' ==> ReadPart(n + "=" + v, filter) == if wanted && ValueValid(v) then [Cookie(n, v)] else [])
      && ReadPart(n + "=\"" + v + "\"", filter) == if wanted && ValueValid(v) then [Cookie(n, v)] else []
  {
    hide NameValid, ValueValid, Equals, ReadPart, ParseValue;
    BareName(n, filter);
    PartParses(n, v, filter);
    PartParses(n, "\"" + v + "\"", filter);
    ParseIs(v);
    assert n + "=" + ("\"" + v + "\"") == n + "=\"" + v + "\"";
  }

  lemma ParseIs(v: string)
    ensures v == "" || v[0] != '\"' ==> ParseValue(v) == if ValueValid(v) then Some(v) else None
    ensures ParseValue("\"" + v + "\"") == if ValueValid(v) then Some(v) else None
  {
    hide ValueValid;
    var q := "\"" + v + "\"";
    assert q[1..|q| - 1] == v;
  }

  lemma BareName(n: string, filter: string)
    requires Free(n, '=') && n != "" && !IsSpace(n[0]) && !IsSpace(n[|n| - 1])
    ensures ReadPart(n, filter) == if NameValid(n) && (filter == "" || filter == n) then [Cookie(n, "")] else []
  {
    NoEquals(n);
    hide NameValid, Equals;
    assert TrimSpace(n) == n;
    assert ParseValue("") == Some("");
  }

  lemma PartParses(n: string, v: string, filter: string)
    requires Free(n, '=') && n != "" && !IsSpace(n[0]) && (v != "" ==> !IsSpace(v[|v| - 1]))
    ensures var val := ParseValue(v);
      ReadPart(n + "=" + v, filter) == if NameValid(n) && (filter == "" || filter == n) && val.Some? then [Cookie(n, val.value)] else []
  {
    var s := n + "=" + v;
    EqualsAfter(n, v);
    assert s[0] == n[0] && s[|s| - 1] == if v == "" then '=' else v[|v| - 1];
    hide NameValid, ParseValue, Equals;
    assert TrimSpace(s) == s;
    assert s[..|n|] == n && s[|n| + 1..] == v;
  }

  lemma {:induction false} NoEquals(n: string)
    requires Free(n, '=')
    ensures Equals(n) == -1
  {
    if n != "" { NoEquals(n[1..]); }
  }

  // ------------------------------------------------------------- the request

  /** AddCookie: the first Cookie line is extended, and others are dropped. */
  function Added(lines: seq<string>, c: Cookie): seq<string> {
    if lines != [] && lines[0] != "" then [lines[0] + "; " + Print(c)] else [Print(c)]
  }

  function ReadLine(line: string, filter: string): seq<Cookie> { ReadParts(Split(line, ';'), filter) }

  lemma ReadLinesOne(line: string, filter: string)
    ensures ReadLines([line], filter) == ReadLine(line, filter)
  {
    assert [line][..0] == [];
    assert ReadLines([], filter) == [];
    ReadTrimmed(line, filter);
  }

  /** Whatever the header line was, adding a cookie adds exactly that cookie at the end. */
  lemma AddCookieReads(lines: seq<string>, c: Cookie, filter: string)
    requires NameValid(c.name)
    ensures ReadLines(Added(lines, c), filter) == (if lines == [] then [] else ReadLines(lines[..1], filter)) + Kept(c, filter)
  {
    hide Split, ReadParts, ReadPart, ReadLines, Print;
    var s := Print(c);
    PrintedPart(c);
    ReadPrinted(c, filter);
    if lines == [] || lines[0] == "" {
      ReadLinesOne(s, filter);
      SplitPart(s, ';');
      ReadPartsOne(s, filter);
      if lines != [] {
        assert lines[..1] == [""];
        ReadLinesOne("", filter);
        SplitPart("", ';');
        ReadPartsOne("", filter);
        ReadNothing(filter);
      }
    } else {
      var l := lines[0];
      assert lines[..1] == [l];
      assert l + "; " + s == l + [';'] + (" " + s);
      ReadLinesOne(l + "; " + s, filter);
      ReadLinesOne(l, filter);
      SplitAppend(l, " " + s, ';');
      SplitPart(" " + s, ';');
      ReadPartsConcat(Split(l, ';'), [" " + s], filter);
      ReadPartsOne(" " + s, filter);
    }
  }

  lemma ReadNothing(filter: string)
    ensures ReadPart("", filter) == []
  {
  }

  function AddedAll(cs: seq<Cookie>): seq<string> {
    if cs == [] then [] else Added(AddedAll(cs[..|cs| - 1]), cs[|cs| - 1])
  }

  function KeptAll(cs: seq<Cookie>, filter: string): seq<Cookie> {
    if cs == [] then [] else KeptAll(cs[..|cs| - 1], filter) + Kept(cs[|cs| - 1], filter)
  }

  predicate AllNamesValid(cs: seq<Cookie>) { forall c <- cs :: NameValid(c.name) }

  lemma {:induction false} AddedAllReads(cs: seq<Cookie>, filter: string)
    requires AllNamesValid(cs)
    ensures ReadLines(AddedAll(cs), filter) == KeptAll(cs, filter) && |AddedAll(cs)| <= 1
  {
    hide ReadLines, Added, Kept, NameValid;
    if cs == [] {
      ReadNoLines(filter);
    } else {
      var before, c := cs[..|cs| - 1], cs[|cs| - 1];
      AddedAllReads(before, filter);
      AddCookieReads(AddedAll(before), c, filter);
      AddedOne(AddedAll(before), c);
      assert AddedAll(before) != [] ==> AddedAll(before)[..1] == AddedAll(before);
      ReadNoLines(filter);
    }
  }

  lemma ReadNoLines(filter: string)
    ensures ReadLines([], filter) == []
  {
  }

  lemma AddedOne(lines: seq<string>, c: Cookie)
    ensures |Added(lines, c)| == 1
  {
  }

  /** Without a filter every cookie comes back. */
  lemma {:induction false} KeptAllIs(cs: seq<Cookie>)
    ensures |KeptAll(cs, "")| == |cs|
    ensures forall i :: 0 <= i < |cs| ==> KeptAll(cs, "")[i] == Cookie(cs[i].name, ValidBytes(cs[i].value))
  {
    hide ValidBytes;
    if cs != [] {
      var before, c := cs[..|cs| - 1], cs[|cs| - 1];
      KeptAllIs(before);
      assert KeptAll(cs, "") == KeptAll(before, "") + [Cookie(c.name, ValidBytes(c.value))];
    }
  }

  predicate SameCookies(got: seq<Cookie>, cs: seq<Cookie>) {
    |got| == |cs| && forall i :: 0 <= i < |cs| ==> got[i] == Cookie(cs[i].name, ValidBytes(cs[i].value))
  }

  /** All cookies come back in order, with the valid bytes of their values, if and only if all names are tokens. */
  lemma CookiesRoundTrip(cs: seq<Cookie>)
    ensures SameCookies(ReadLines(AddedAll(cs), ""), cs) <==> AllNamesValid(cs)
  {
    hide AddedAll, NameValid;
    if AllNamesValid(cs) {
      AddedAllReads(cs, "");
      KeptAllIs(cs);
    } else {
      var got := ReadLines(AddedAll(cs), "");
      var c :| c in cs && !NameValid(c.name);
      var i :| 0 <= i < |cs| && cs[i] == c;
      assert |got| == |cs| ==> NameValid(got[i].name);
    }
  }

  class Request {
    var cookieLines: seq<string>

    constructor (lines: seq<string>)
      ensures cookieLines == lines
    {
      cookieLines := lines;
    }

    method AddCookie(c: Cookie)
      modifies this
      ensures cookieLines == Added(old(cookieLines), c)
      ensures NameValid(c.name) && |old(cookieLines)| <= 1 ==>
        forall filter :: ReadLines(cookieLines, filter) == ReadLines(old(cookieLines), filter) + Kept(c, filter)
    {
      hide ReadLines, NameValid, Kept;
      ghost var lines := cookieLines;
      var v := SanitizeOrWarn(c.value);
      var s := PrintName(c.name) + "=" + (if v != "" && (' ' in v || ',' in v) then "\"" + v + "\"" else v);
      var first := if |cookieLines| > 0 then cookieLines[0] else "";
      if first != "" { cookieLines := [first + "; " + s]; } else { cookieLines := [s]; }
      assert cookieLines == Added(lines, c);
      if NameValid(c.name) && |lines| <= 1 {
        forall filter ensures ReadLines(cookieLines, filter) == ReadLines(lines, filter) + Kept(c, filter) {
          AddCookieReads(lines, c, filter);
          ReadNoLines(filter);
          assert lines != [] ==> lines[..1] == lines;
        }
      }
    }
  }
}
