/** Splitting at a separator and joining again. */
module Strings {
  /** The separator between every two parts. */
  function Join(parts: seq<string>, sep: char): string {
    if parts == [] then ""
    else if |parts| == 1 then parts[0]
    else parts[0] + [sep] + Join(parts[1..], sep)
  }

  predicate Free(s: string, c: char) { c !in s }

  predicate AllFree(parts: seq<string>, c: char) { forall p <- parts :: Free(p, c) }

  /** The parts of `s` between separators: the only parts free of it that join to `s`. */
  function Split(s: string, sep: char): (parts: seq<string>)
    ensures |parts| >= 1 && AllFree(parts, sep) && Join(parts, sep) == s
  {
    if s == "" then [""]
    else if s[0] == sep then
      var rest := Split(s[1..], sep);
      assert ([""] + rest)[1..] == rest;
      [""] + rest
    else
      var rest := Split(s[1..], sep);
      var parts := [[s[0]] + rest[0]] + rest[1..];
      assert parts[1..] == rest[1..];
      assert forall p <- parts :: p in rest || p == [s[0]] + rest[0];
      assert Free(rest[0], sep);
      parts
  }

  lemma {:induction false} SplitPart(p: string, sep: char)
    requires Free(p, sep)
    ensures Split(p, sep) == [p]
  {
    if p != "" { SplitPart(p[1..], sep); }
  }

  /** One more character in front. */
  function Prepend(c: char, t: seq<string>, sep: char): seq<string>
    requires t != []
  {
    if c == sep then [""] + t else [[c] + t[0]] + t[1..]
  }

  lemma SplitChar(c: char, rest: string, sep: char)
    ensures Split([c] + rest, sep) == Prepend(c, Split(rest, sep), sep)
  {
    assert ([c] + rest)[1..] == rest;
  }

  lemma PrependConcat(c: char, t: seq<string>, u: seq<string>, sep: char)
    requires t != []
    ensures Prepend(c, t + u, sep) == Prepend(c, t, sep) + u
  {
    assert (t + u)[1..] == t[1..] + u;
  }

  /** Splitting around a separator. */
  lemma {:induction false} SplitAppend(a: string, b: string, sep: char)
    ensures Split(a + [sep] + b, sep) == Split(a, sep) + Split(b, sep)
  {
    hide Split, Join, AllFree, Prepend;
    if a == "" {
      assert a + [sep] + b == [sep] + b;
      SplitChar(sep, b, sep);
      SplitPart("", sep);
      SepFirst(sep, Split(b, sep));
    } else {
      var tail := a[1..];
      assert a + [sep] + b == [a[0]] + (tail + [sep] + b);
      assert a == [a[0]] + tail;
      SplitAppend(tail, b, sep);
      SplitChar(a[0], tail + [sep] + b, sep);
      SplitChar(a[0], tail, sep);
      PrependConcat(a[0], Split(tail, sep), Split(b, sep), sep);
    }
  }

  lemma SepFirst(sep: char, t: seq<string>)
    requires t != []
    ensures Prepend(sep, t, sep) == [""] + t
  {
  }

  function AppendLast(t: seq<string>, c: char): seq<string>
    requires t != []
  {
    t[..|t| - 1] + [t[|t| - 1] + [c]]
  }

  lemma PrependAppend(c: char, t: seq<string>, d: char, sep: char)
    requires t != []
    ensures Prepend(c, AppendLast(t, d), sep) == AppendLast(Prepend(c, t, sep), d)
  {
    var u := AppendLast(t, d);
    if c == sep {
      assert [""] + u == AppendLast([""] + t, d);
    } else if |t| == 1 {
      assert [c] + (t[0] + [d]) == [c] + t[0] + [d];
      assert Prepend(c, u, sep) == AppendLast(Prepend(c, t, sep), d);
    } else {
      assert u[0] == t[0] && u[1..] == t[1..][..|t| - 2] + [t[|t| - 1] + [d]];
      assert Prepend(c, u, sep) == AppendLast(Prepend(c, t, sep), d);
    }
  }

  /** One more character at the end. */
  lemma {:induction false} SplitEnd(s: string, c: char, sep: char)
    requires c != sep
    ensures Split(s + [c], sep) == AppendLast(Split(s, sep), c)
  {
    if s == "" {
      assert s + [c] == [c];
      SplitPart([c], sep);
      SplitPart("", sep);
    } else {
      hide Split, Join, AllFree, Prepend, AppendLast;
      var tail := s[1..];
      assert s + [c] == [s[0]] + (tail + [c]);
      assert s == [s[0]] + tail;
      SplitEnd(tail, c, sep);
      SplitChar(s[0], tail + [c], sep);
      SplitChar(s[0], tail, sep);
      PrependAppend(s[0], Split(tail, sep), c, sep);
    }
  }

  lemma {:induction false} SplitJoin(parts: seq<string>, sep: char)
    requires parts != [] && AllFree(parts, sep)
    ensures Split(Join(parts, sep), sep) == parts
  {
    if |parts| == 1 {
      SplitPart(parts[0], sep);
    } else {
      SplitAppend(parts[0], Join(parts[1..], sep), sep);
      SplitPart(parts[0], sep);
      SplitJoin(parts[1..], sep);
    }
  }
}
