/**
 The Punycode encoder of the cookie jar, proved against a decoder written from
 section 6.2 of RFC 3492.
 */
module Punycode {
  import opened Arith
  import opened Basics
  import opened Int32

  const BASE := 36
  const DAMP := 700
  const INITIAL_BIAS := 72
  const INITIAL_N := 128
  const SKEW := 38
  const TMAX := 26
  const TMIN := 1

  const MAX_RUNE := 0x10_ffff
  const DELIMITER: byte := 45

  /** The longest length at which no label has a delta outside the int32 range. */
  const MAX_LABEL := 1927

  type Rune = r: int | 0 <= r <= MAX_RUNE

  datatype Result = Encoded(bytes: seq<byte>) | InvalidLabel

  // ---------------------------------------------------------------- decoder

  /** Section 6.1: the part of the bias adaptation that the loop computes. */
  function AdaptLoop(delta: nat, k: nat): nat
    decreases delta
  {
    if delta > ((BASE - TMIN) * TMAX) / 2 then AdaptLoop(delta / (BASE - TMIN), k + BASE)
    else k + Div((BASE - TMIN + 1) * delta, delta + SKEW)
  }

  function Adapt(delta: nat, numPoints: nat, firstTime: bool): nat
    requires numPoints > 0
  {
    var d := if firstTime then delta / DAMP else delta / 2;
    AdaptLoop(d + Div(d, numPoints), 0)
  }

  /** Section 6.2: the digit threshold at position `k`. */
  function Threshold(k: int, bias: int): (t: int)
    ensures TMIN <= t <= TMAX
  {
    if k <= bias then TMIN else if k >= bias + TMAX then TMAX else k - bias
  }

  /** Section 5: letters of either case are 0 to 25, decimal digits 26 to 35. */
  function DigitValue(b: byte): (d: Option<int>)
    ensures d.Some? ==> 0 <= d.value < BASE
  {
    if 97 <= b <= 122 then Some(b - 97)
    else if 65 <= b <= 90 then Some(b - 65)
    else if 48 <= b <= 57 then Some(b - 22)
    else None
  }

  /** Section 6.2: one variable-length integer, accumulated into `i` with weight `w`. */
  function DecodeVar(input: seq<byte>, k: int, i: nat, w: nat, bias: int): (r: Option<(nat, seq<byte>)>)
    ensures r.Some? ==> |r.value.1| < |input|
    decreases |input|
  {
    if input == [] || DigitValue(input[0]).None? then None
    else
      var digit := DigitValue(input[0]).value;
      var t := Threshold(k, bias);
      if digit < t then Some((i + Times(digit, w), input[1..]))
      else DecodeVar(input[1..], k + BASE, i + Times(digit, w), Times(BASE - t, w), bias)
  }

  /** The decoder's variables between two code point insertions. */
  datatype State = State(out: seq<int>, n: nat, i: nat, bias: nat)

  /** Section 6.2: one insertion, when the decoded integer has moved `i` to `i2`. */
  function Insert(s: State, i2: nat): State
    requires s.i <= i2
  {
    var len := |s.out| + 1;
    var n := s.n + Div(i2, len);
    var pos := Mod(i2, len);
    DivMod(i2, len);
    State(s.out[..pos] + [n] + s.out[pos..], n, pos + 1, Adapt(i2 - s.i, len, s.i == 0))
  }

  lemma DecodeVarGrows(input: seq<byte>, k: int, i: nat, w: nat, bias: int)
    ensures DecodeVar(input, k, i, w, bias).Some? ==> i <= DecodeVar(input, k, i, w, bias).value.0
    decreases |input|
  {
    if input != [] && DigitValue(input[0]).Some? {
      var digit := DigitValue(input[0]).value;
      DecodeVarGrows(input[1..], k + BASE, i + Times(digit, w), Times(BASE - Threshold(k, bias), w), bias);
    }
  }

  /** Section 6.2: the main loop, until the input is exhausted. */
  function Run(s: State, input: seq<byte>): Option<State>
    decreases |input|
  {
    if input == [] then Some(s)
    else
      var r := DecodeVar(input, BASE, s.i, 1, s.bias);
      if r.None? then None
      else
        DecodeVarGrows(input, BASE, s.i, 1, s.bias);
        Run(Insert(s, r.value.0), r.value.1)
  }

  function LastDelimiter(bytes: seq<byte>): (p: int)
    ensures -1 <= p < |bytes|
    ensures p >= 0 ==> bytes[p] == DELIMITER
    ensures forall j :: p < j < |bytes| ==> bytes[j] != DELIMITER
  {
    if bytes == [] then -1
    else if bytes[|bytes| - 1] == DELIMITER then |bytes| - 1
    else LastDelimiter(bytes[..|bytes| - 1])
  }

  /** The decoder before its first insertion. */
  function Start(basic: seq<byte>): State { State(basic, INITIAL_N, 0, INITIAL_BIAS) }

  /**
   Section 6.2: the basic code points are those before the last delimiter, which is consumed
   only if there are any.
   */
  function Decode(bytes: seq<byte>): Option<seq<int>>
  {
    var p := LastDelimiter(bytes);
    var basic := if p <= 0 then [] else bytes[..p];
    if exists j :: 0 <= j < |basic| && basic[j] >= INITIAL_N then None
    else
      match Run(Start(basic), bytes[if p <= 0 then 0 else p + 1..])
      case None => None
      case Some(s) => Some(s.out)
  }

  // ------------------------------------------- lemmas about the decoder loop

  /** Bytes after a complete integer do not change how it decodes. */
  lemma {:induction false} DecodeVarAppend(a: seq<byte>, b: seq<byte>, k: int, i: nat, w: nat, bias: int)
    requires DecodeVar(a, k, i, w, bias).Some?
    ensures DecodeVar(a + b, k, i, w, bias).Some?
    ensures DecodeVar(a + b, k, i, w, bias).value.0 == DecodeVar(a, k, i, w, bias).value.0
    ensures DecodeVar(a + b, k, i, w, bias).value.1 == DecodeVar(a, k, i, w, bias).value.1 + b
    decreases |a|
  {
    var digit := DigitValue(a[0]).value;
    var t := Threshold(k, bias);
    assert (a + b)[0] == a[0];
    assert (a + b)[1..] == a[1..] + b;
    if digit >= t {
      DecodeVarAppend(a[1..], b, k + BASE, i + Times(digit, w), Times(BASE - t, w), bias);
    }
  }

  /** Decoding a concatenation is decoding the second part from where the first part ends. */
  lemma {:induction false} RunAppend(s: State, a: seq<byte>, b: seq<byte>)
    requires Run(s, a).Some?
    ensures Run(s, a + b) == Run(Run(s, a).value, b)
    decreases |a|
  {
    if a == [] {
      assert a + b == b;
    } else {
      DecodeVarAppend(a, b, BASE, s.i, 1, s.bias);
      DecodeVarGrows(a, BASE, s.i, 1, s.bias);
      var r := DecodeVar(a, BASE, s.i, 1, s.bias).value;
      RunAppend(Insert(s, r.0), r.1, b);
    }
  }

  // ----------------------------------------- variable-length integer encoder

  /** The byte of a digit; the source panics outside [0, 36). */
  function EncodeDigit(digit: int): (b: byte)
    requires 0 <= digit < BASE
    ensures DigitValue(b) == Some(digit)
    ensures b != DELIMITER
  {
    if digit < 26 then digit + 97 else digit + 22
  }

  /** The digits of `q` from position `k` on. */
  function VarDigits(q: nat, k: int, bias: int): (r: seq<byte>)
    ensures DELIMITER !in r
    decreases q
  {
    var t := Threshold(k, bias);
    if q < t then [EncodeDigit(q)]
    else
      DivMod(q - t, BASE - t);
      [EncodeDigit(t + Mod(q - t, BASE - t))] + VarDigits(Div(q - t, BASE - t), k + BASE, bias)
  }

  lemma {:induction false} WeightedSum(digit: nat, rest: nat, m: nat, w: nat)
    ensures Times(digit, w) + Times(rest, Times(m, w)) == Times(digit + Times(rest, m), w)
  {
    if rest == 0 {
    } else {
      WeightedSum(digit, rest - 1, m, w);
      TimesAdd(digit + Times(rest - 1, m), m, w);
      assert digit + Times(rest - 1, m) + m == digit + Times(rest, m);
    }
  }

  /** Decoding the digits of `q` adds `q`, weighted, and consumes exactly those digits. */
  lemma {:induction false} VarRoundTrip(q: nat, k: int, i: nat, w: nat, bias: int)
    ensures DecodeVar(VarDigits(q, k, bias), k, i, w, bias) == Some((i + Times(q, w), []))
    decreases q
  {
    hide Times, Div, Mod;
    var t := Threshold(k, bias);
    var ds := VarDigits(q, k, bias);
    if q >= t {
      var m, x := BASE - t, q - t;
      DivMod(x, m);
      var digit, rest := t + Mod(x, m), Div(x, m);
      var i2, w2 := i + Times(digit, w), Times(m, w);
      VarRoundTrip(rest, k + BASE, i2, w2, bias);
      WeightedSum(digit, rest, m, w);
      assert ds[0] == EncodeDigit(digit) && ds[1..] == VarDigits(rest, k + BASE, bias);
      assert DecodeVar(ds, k, i, w, bias) == DecodeVar(ds[1..], k + BASE, i2, w2, bias);
    }
  }

  /** Appending the digits of `delta` to decoded input performs exactly one more insertion. */
  lemma RunDelta(s: State, input: seq<byte>, s1: State, delta: nat)
    requires Run(s, input) == Some(s1)
    ensures Run(s, input + VarDigits(delta, BASE, s1.bias)) == Some(Insert(s1, s1.i + delta))
  {
    hide Insert, VarDigits;
    var ds := VarDigits(delta, BASE, s1.bias);
    RunAppend(s, input, ds);
    VarRoundTrip(delta, BASE, s1.i, 1, s1.bias);
    TimesIsProduct(delta, 1);
  }

  // ------------------------------------------------ the label, part by part

  /** Whether element `j` with value `r` precedes the encoder's position (n, idx). */
  predicate Before(r: int, j: int, n: int, idx: int) {
    r < n || (r == n && j < idx)
  }

  /** The elements of `s` already encoded when the encoder stands at (n, idx). */
  function Done(s: seq<Rune>, n: int, idx: int): (d: seq<int>)
    ensures |d| <= |s|
  {
    if s == [] then []
    else
      var last := |s| - 1;
      Done(s[..last], n, idx) + (if Before(s[last], last, n, idx) then [s[last]] else [])
  }

  /** How many elements left of `idx` are encoded: the insertion position. */
  function Pos(s: seq<Rune>, n: int, idx: nat): nat
    requires idx <= |s|
  {
    |Done(s[..idx], n, idx)|
  }

  lemma {:induction false} DoneCong(s: seq<Rune>, n1: int, i1: int, n2: int, i2: int)
    requires forall j :: 0 <= j < |s| ==> Before(s[j], j, n1, i1) == Before(s[j], j, n2, i2)
    ensures Done(s, n1, i1) == Done(s, n2, i2)
  {
    if s != [] {
      var t := s[..|s| - 1];
      assert forall j :: 0 <= j < |t| ==> t[j] == s[j];
      DoneCong(t, n1, i1, n2, i2);
    }
  }

  lemma {:induction false} DoneAll(s: seq<Rune>, n: int, idx: int)
    requires forall j :: 0 <= j < |s| ==> Before(s[j], j, n, idx)
    ensures Done(s, n, idx) == s
  {
    if s != [] {
      var t := s[..|s| - 1];
      assert forall j :: 0 <= j < |t| ==> t[j] == s[j];
      DoneAll(t, n, idx);
      assert s == t + [s[|s| - 1]];
    }
  }

  lemma {:induction false} DonePending(s: seq<Rune>, n: int, idx: int, j: nat)
    requires j < |s| && !Before(s[j], j, n, idx)
    ensures |Done(s, n, idx)| < |s|
  {
    if j < |s| - 1 {
      assert s[..|s| - 1][j] == s[j];
      DonePending(s[..|s| - 1], n, idx, j);
    }
  }

  /** Moving one element right advances the insertion position past an encoded element only. */
  lemma PosStep(s: seq<Rune>, n: int, idx: nat)
    requires idx < |s|
    ensures Pos(s, n, idx + 1) == Pos(s, n, idx) + (if s[idx] <= n then 1 else 0)
  {
    assert s[..idx + 1][..idx] == s[..idx];
    DoneCong(s[..idx], n, idx + 1, n, idx);
  }

  /** Encoding the element at `idx` inserts it at its position among the encoded ones. */
  lemma {:induction false} DoneInsert(s: seq<Rune>, n: int, idx: nat)
    requires idx < |s| && s[idx] == n
    ensures Pos(s, n, idx) <= |Done(s, n, idx)|
    ensures Done(s, n, idx + 1)
         == Done(s, n, idx)[..Pos(s, n, idx)] + [n] + Done(s, n, idx)[Pos(s, n, idx)..]
  {
    var last := |s| - 1;
    if idx == last {
      DoneCong(s[..last], n, idx + 1, n, idx);
    } else {
      var t := s[..last];
      assert t[..idx] == s[..idx] && t[idx] == s[idx];
      DoneInsert(t, n, idx);
      assert Before(s[last], last, n, idx) == Before(s[last], last, n, idx + 1);
    }
  }

  lemma {:induction false} PosBound(s: seq<Rune>, n: int, idx: nat)
    requires idx <= |s|
    ensures Pos(s, n, idx) <= |Done(s, n, idx)|
  {
    if idx == |s| {
      assert s[..idx] == s;
    } else {
      assert s[..|s| - 1][..idx] == s[..idx];
      PosBound(s[..|s| - 1], n, idx);
    }
  }

  // ---------------------------------------------------------------- encoder

  /** The last quotient of `adapt` is at most 36. */
  lemma AdaptTail(delta: nat)
    ensures Div((BASE - TMIN + 1) * delta, delta + SKEW) <= BASE
  {
    var x, d := BASE * delta, delta + SKEW;
    DivMod(x, d);
    if Div(x, d) > BASE {
      TimesMono(BASE + 1, Div(x, d), d, d);
      TimesIsProduct(BASE + 1, d);
    }
  }

  /** `adapt`: the loop computes section 6.1's bias, with every int32 operation in range. */
  method ComputeAdapt(delta0: int, numPoints: int, firstTime: bool) returns (bias: int)
    requires 0 <= delta0 <= MAX_INT32 && 0 < numPoints
    ensures bias == Adapt(delta0, numPoints, firstTime)
    ensures 0 <= bias <= MAX_INT32
  {
    var delta := delta0;
    if firstTime {
      delta := Fits32(delta / DAMP);
    } else {
      delta := Fits32(delta / 2);
    }
    DivMod(delta, numPoints);
    DivIsQuotient(delta, numPoints);
    delta := Fits32(delta + delta / numPoints);
    var k := 0;
    while delta > ((BASE - TMIN) * TMAX) / 2
      invariant 0 <= k && 0 <= delta && delta + k <= MAX_INT32
      invariant k == 0 || delta + k <= MAX_INT32 - BASE
      invariant AdaptLoop(delta, k) == Adapt(delta0, numPoints, firstTime)
    {
      delta := Fits32(delta / (BASE - TMIN));
      k := Fits32(k + BASE);
    }
    AdaptTail(delta);
    DivIsQuotient((BASE - TMIN + 1) * delta, delta + SKEW);
    bias := Fits32(k + Fits32(Fits32((BASE - TMIN + 1) * delta) / Fits32(delta + SKEW)));
  }

  /** An upper bound of `q` after `j` digits: each digit divides by at least ten. */
  function Cap(j: nat): nat {
    if j == 0 then MAX_INT32 else Cap(j - 1) / 10
  }

  lemma CapEnds()
    ensures Cap(10) == 0
  {
    assert Cap(2) == 21474836;
    assert Cap(4) == 214748;
    assert Cap(6) == 2147;
    assert Cap(8) == 21;
  }

  lemma DigitShrinks(q: nat, t: int, c: nat)
    requires TMIN <= t <= TMAX && t <= q <= c
    ensures Div(q - t, BASE - t) <= c / 10
  {
    var x, m := q - t, BASE - t;
    DivMod(x, m);
    TimesMono(Div(x, m), Div(x, m), 10, m);
    TimesIsProduct(Div(x, m), 10);
  }

  /** One turn of the digit loop of `encode` that does not end it. */
  method NextDigit(q: int, k: int, bias: int, t: int, ghost c: nat) returns (digit: byte, rest: int)
    requires t == Threshold(k, bias) && t <= q <= c <= MAX_INT32
    ensures 0 <= rest <= c / 10 && rest < q
    ensures [digit] + VarDigits(rest, k + BASE, bias) == VarDigits(q, k, bias)
  {
    DigitShrinks(q, t, c);
    DivMod(q - t, BASE - t);
    DivIsQuotient(q - t, BASE - t);
    digit := EncodeDigit(Fits32(t + (q - t) % (BASE - t)));
    rest := Fits32((q - t) / (BASE - t));
  }

  /** The digit loop of `encode`: the variable-length integer, with every int32 operation in range. */
  method EmitDelta(delta: int, bias: int) returns (digits: seq<byte>)
    requires 0 <= delta <= MAX_INT32 && 0 <= bias <= MAX_INT32
    ensures digits == VarDigits(delta, BASE, bias)
  {
    digits := [];
    var q, k := delta, BASE;
    ghost var j := 0;
    while true
      invariant 0 <= q <= Cap(j) <= MAX_INT32 && 0 <= j <= 10 && k == BASE * (j + 1)
      invariant digits + VarDigits(q, k, bias) == VarDigits(delta, BASE, bias)
      decreases q
    {
      if j == 10 {
        CapEnds();
      }
      var t := Fits32(k - bias);
      if t < TMIN {
        t := TMIN;
      } else if t > TMAX {
        t := TMAX;
      }
      if q < t {
        break;
      }
      ghost var before := VarDigits(q, k, bias);
      var digit, rest := NextDigit(q, k, bias, t, Cap(j));
      assert digits + before == (digits + [digit]) + VarDigits(rest, k + BASE, bias);
      digits := digits + [digit];
      q := rest;
      k := Fits32(k + BASE);
      j := j + 1;
    }
    digits := digits + [EncodeDigit(q)];
  }

  /** The smallest code point not below `n`, or the largest int32 when there is none. */
  method MinAtLeast(s: seq<Rune>, n: int) returns (m: int)
    ensures forall j :: 0 <= j < |s| && n <= s[j] ==> m <= s[j]
    ensures m == MAX_INT32 || (n <= m && m in s)
  {
    m := MAX_INT32;
    for j := 0 to |s|
      invariant forall i :: 0 <= i < j && n <= s[i] ==> m <= s[i]
      invariant m == MAX_INT32 || (n <= m && m in s)
    {
      if m > s[j] && s[j] >= n {
        m := s[j];
      }
    }
  }

  /** The first loop: basic code points are copied, the others counted. */
  method CopyBasic(s: seq<Rune>) returns (basic: seq<byte>, remaining: int)
    requires |s| <= MAX_INT32
    ensures basic == Done(s, INITIAL_N, 0)
    ensures forall j :: 0 <= j < |basic| ==> basic[j] < INITIAL_N
    ensures remaining == |s| - |basic|
  {
    basic, remaining := [], 0;
    for j := 0 to |s|
      invariant basic == Done(s[..j], INITIAL_N, 0)
      invariant forall i :: 0 <= i < |basic| ==> basic[i] < INITIAL_N
      invariant remaining == j - |basic|
    {
      assert s[..j + 1][..j] == s[..j];
      if s[j] < INITIAL_N {
        basic := basic + [s[j]];
      } else {
        remaining := Fits32(remaining + 1);
      }
    }
    assert s[..|s|] == s;
  }

  // ------------------------------------------- the deltas of a label, unbounded

  /** The decoder after one insertion per delta. */
  function Build(st: State, ds: seq<nat>): State
    decreases |ds|
  {
    if ds == [] then st else Build(Insert(st, st.i + ds[0]), ds[1..])
  }

  lemma {:induction false} BuildAppend(st: State, ds: seq<nat>, d: nat)
    ensures Build(st, ds + [d]) == Insert(Build(st, ds), Build(st, ds).i + d)
    decreases |ds|
  {
    hide Insert;
    if ds == [] {
      assert (ds + [d])[1..] == [];
    } else {
      assert (ds + [d])[1..] == ds[1..] + [d];
      BuildAppend(Insert(st, st.i + ds[0]), ds[1..], d);
    }
  }

  /**
   Section 6.3 without its shortcut: go through all code point values, and for each through the
   label, counting the decoder states passed; each occurrence found ends a count.
   */
  function DeltasFrom(s: seq<Rune>, n: int, idx: nat, d: nat): seq<nat>
    requires idx <= |s|
    decreases MAX_RUNE + 1 - n, |s| - idx
  {
    if n > MAX_RUNE then []
    else if idx == |s| then DeltasFrom(s, n + 1, 0, d + 1)
    else if s[idx] < n then DeltasFrom(s, n, idx + 1, d + 1)
    else if s[idx] == n then [d] + DeltasFrom(s, n, idx + 1, 0)
    else DeltasFrom(s, n, idx + 1, d)
  }

  function Deltas(s: seq<Rune>): seq<nat> { DeltasFrom(s, INITIAL_N, 0, 0) }

  /** Whether int32 holds every delta of the label. */
  predicate Fits(s: seq<Rune>) { forall d <- Deltas(s) :: d <= MAX_INT32 }

  /**
   Whether, on the same way, the count is ever negative as int32 while a value that occurs in the
   label is gone through.
   */
  predicate RefusesFrom(s: seq<Rune>, n: int, idx: nat, d: nat)
    requires idx <= |s|
    decreases MAX_RUNE + 1 - n, |s| - idx
  {
    n <= MAX_RUNE &&
    ((n in s && Wrap32(d) < 0) ||
     if idx == |s| then RefusesFrom(s, n + 1, 0, d + 1)
     else RefusesFrom(s, n, idx + 1, if s[idx] < n then d + 1 else if s[idx] == n then 0 else d))
  }

  /** The labels that int32 arithmetic refuses. */
  predicate Refuses(s: seq<Rune>) { RefusesFrom(s, INITIAL_N, 0, 0) }

  /** The counter `d` at (n, idx) is the decoder's distance from there. */
  ghost predicate Linked(s: seq<Rune>, st: State, n: int, idx: nat, d: int)
    requires idx <= |s|
  {
    && st.out == Done(s, n, idx)
    && st.i <= |st.out| && INITIAL_N <= st.n <= n
    && (st.n == n ==> st.i <= Pos(s, n, idx))
    && d == Times(n - st.n, |st.out| + 1) + Pos(s, n, idx) - st.i
  }

  /** The decoder's insertion when it is `q` values and `pos` positions away. */
  function InsertAt(st: State, q: nat, pos: nat, delta: nat): State
    requires pos <= |st.out|
  {
    State(st.out[..pos] + [st.n + q] + st.out[pos..], st.n + q, pos + 1, Adapt(delta, |st.out| + 1, st.i == 0))
  }

  lemma InsertIsInsertAt(st: State, q: nat, pos: nat, delta: nat)
    requires pos <= |st.out| && st.i + delta == Times(q, |st.out| + 1) + pos
    ensures Insert(st, st.i + delta) == InsertAt(st, q, pos, delta)
  {
    DivModUnique(q, |st.out| + 1, pos);
  }

  /** Inserting the code point at `idx` keeps counter and decoder linked. */
  lemma LinkedInsert(s: seq<Rune>, st: State, n: int, idx: nat, d: nat)
    requires idx < |s| && s[idx] == n && Linked(s, st, n, idx, d)
    ensures Linked(s, Insert(st, st.i + d), n, idx + 1, 0)
  {
    var pos := Pos(s, n, idx);
    assert pos <= |st.out| && Pos(s, n, idx + 1) == pos + 1 by {
      PosBound(s, n, idx);
      PosStep(s, n, idx);
    }
    InsertIsInsertAt(st, n - st.n, pos, d);
    var st2 := InsertAt(st, n - st.n, pos, d);
    assert st2.out == Done(s, n, idx + 1) by {
      DoneInsert(s, n, idx);
    }
    assert Times(n - st2.n, |st2.out| + 1) == 0;
  }

  /** Passing a smaller or larger code point keeps them linked. */
  lemma LinkedSkip(s: seq<Rune>, st: State, n: int, idx: nat, d: int)
    requires idx < |s| && s[idx] != n && Linked(s, st, n, idx, d)
    ensures Linked(s, st, n, idx + 1, d + (if s[idx] < n then 1 else 0))
  {
    DoneCong(s, n, idx, n, idx + 1);
    PosStep(s, n, idx);
  }

  /** Ending a pass over the label keeps them linked. */
  lemma LinkedNext(s: seq<Rune>, st: State, n: int, d: int)
    requires Linked(s, st, n, |s|, d)
    ensures Linked(s, st, n + 1, 0, d + 1)
  {
    DoneCong(s, n, |s|, n + 1, 0);
    assert s[..0] == [] && s[..|s|] == s;
  }

  lemma StartLinked(s: seq<Rune>, basic: seq<byte>)
    requires basic == Done(s, INITIAL_N, 0)
    ensures Linked(s, Start(basic), INITIAL_N, 0, 0)
  {
    assert s[..0] == [];
  }

  /** The deltas of a label, inserted one after another, build the label. */
  lemma {:induction false} DeltasBuild(s: seq<Rune>, st: State, n: int, idx: nat, d: nat)
    requires idx <= |s| && n <= MAX_RUNE + 1 && (n > MAX_RUNE ==> idx == 0) && Linked(s, st, n, idx, d)
    ensures Build(st, DeltasFrom(s, n, idx, d)).out == s
    decreases MAX_RUNE + 1 - n, |s| - idx
  {
    hide Linked, Insert;
    if n > MAX_RUNE {
      DoneAll(s, n, 0);
      LinkedOut(s, st, n, idx, d);
    } else if idx == |s| {
      LinkedNext(s, st, n, d);
      DeltasBuild(s, st, n + 1, 0, d + 1);
    } else if s[idx] == n {
      LinkedInsert(s, st, n, idx, d);
      DeltasBuild(s, Insert(st, st.i + d), n, idx + 1, 0);
    } else {
      LinkedSkip(s, st, n, idx, d);
      DeltasBuild(s, st, n, idx + 1, d + (if s[idx] < n then 1 else 0));
    }
  }

  lemma LinkedOut(s: seq<Rune>, st: State, n: int, idx: nat, d: int)
    requires idx <= |s| && Linked(s, st, n, idx, d)
    ensures st.out == Done(s, n, idx)
  {
  }

  /** With at most 1927 code points, the distance between decoder and encoder fits in int32. */
  lemma DeltaFits(s: seq<Rune>, n: int, stn: int, sti: nat, h: nat, pos: nat)
    requires |s| <= MAX_LABEL && INITIAL_N <= stn <= n <= MAX_RUNE && pos <= h < |s|
    ensures Times(n - stn, h + 1) + pos - sti <= MAX_INT32
  {
    if stn < n {
      TimesMono(n - stn, MAX_RUNE - INITIAL_N, h + 1, MAX_LABEL);
      TimesIsProduct(MAX_RUNE - INITIAL_N, MAX_LABEL);
    }
  }

  lemma EmittedFits(s: seq<Rune>, st: State, n: int, idx: nat, d: nat)
    requires |s| <= MAX_LABEL && idx < |s| && s[idx] == n <= MAX_RUNE && Linked(s, st, n, idx, d)
    ensures d <= MAX_INT32
  {
    PosBound(s, n, idx);
    DonePending(s, n, idx, idx);
    DeltaFits(s, n, st.n, st.i, |st.out|, Pos(s, n, idx));
  }

  lemma {:induction false} ShortFitsFrom(s: seq<Rune>, st: State, n: int, idx: nat, d: nat)
    requires |s| <= MAX_LABEL && idx <= |s| && Linked(s, st, n, idx, d)
    ensures forall x <- DeltasFrom(s, n, idx, d) :: x <= MAX_INT32
    decreases MAX_RUNE + 1 - n, |s| - idx
  {
    hide Insert, Linked;
    if n > MAX_RUNE {
    } else if idx == |s| {
      LinkedNext(s, st, n, d);
      ShortFitsFrom(s, st, n + 1, 0, d + 1);
    } else if s[idx] == n {
      EmittedFits(s, st, n, idx, d);
      LinkedInsert(s, st, n, idx, d);
      ShortFitsFrom(s, Insert(st, st.i + d), n, idx + 1, 0);
    } else {
      LinkedSkip(s, st, n, idx, d);
      ShortFitsFrom(s, st, n, idx + 1, d + (if s[idx] < n then 1 else 0));
    }
  }

  /** Every label of at most 1927 code points fits. */
  lemma ShortFits(s: seq<Rune>)
    requires |s| <= MAX_LABEL
    ensures Fits(s)
  {
    var basic := BasicOf(s);
    StartLinked(s, basic);
    ShortFitsFrom(s, Start(basic), INITIAL_N, 0, 0);
  }

  /** The basic code points of a label, as bytes. */
  function BasicOf(s: seq<Rune>): (b: seq<byte>)
    ensures b == Done(s, INITIAL_N, 0)
    ensures forall j :: 0 <= j < |b| ==> b[j] < INITIAL_N
  {
    if s == [] then []
    else
      var last := |s| - 1;
      BasicOf(s[..last]) + (if s[last] < INITIAL_N then [s[last]] else [])
  }

  // -------------------------------------------------- a label has one delta sequence

  /** What insertions keep: the last one put the value `n`, and everything after it is smaller. */
  predicate Canonical(st: State) {
    && (forall j :: 0 <= j < |st.out| ==> st.out[j] <= st.n)
    && st.i <= |st.out|
    && (forall j :: st.i <= j < |st.out| ==> st.out[j] < st.n)
  }

  lemma InsertAtCanonical(st: State, q: nat, pos: nat, d: nat)
    requires Canonical(st) && pos <= |st.out| && (q == 0 ==> st.i <= pos)
    ensures var u := InsertAt(st, q, pos, d);
      Canonical(u) && |u.out| == |st.out| + 1 && u.i == pos + 1 && u.out[pos] == u.n && u.out[..pos] + u.out[pos + 1..] == st.out
  {
    hide Adapt;
    var u := InsertAt(st, q, pos, d);
    assert u.out[..pos] == st.out[..pos] && u.out[pos + 1..] == st.out[pos..];
    forall j | pos < j < |u.out| ensures u.out[j] < u.n { assert u.out[j] == st.out[j - 1]; }
  }

  lemma InsertCanonical(st: State, d: nat)
    requires Canonical(st)
    ensures var u := Insert(st, st.i + d);
      Canonical(u) && |u.out| == |st.out| + 1 && u.i > 0 && u.out[u.i - 1] == u.n && u.out[..u.i - 1] + u.out[u.i..] == st.out
  {
    hide Insert, Adapt;
    var len := |st.out| + 1;
    DivMod(st.i + d, len);
    var q, pos := Div(st.i + d, len), Mod(st.i + d, len);
    assert q == 0 ==> Times(q, len) == 0;
    InsertIsInsertAt(st, q, pos, d);
    CanonicalBound(st);
    InsertAtCanonical(st, q, pos, d);
  }

  lemma CanonicalBound(st: State)
    requires Canonical(st)
    ensures st.i <= |st.out|
  {
  }

  /** Two canonical states with the same output after an insertion have the same last insertion. */
  lemma SameLast(u: State, v: State)
    requires Canonical(u) && Canonical(v) && u.out == v.out && u.i > 0 && v.i > 0
    requires u.out[u.i - 1] == u.n && v.out[v.i - 1] == v.n
    ensures u.n == v.n && u.i == v.i
  {
  }

  lemma {:induction false} BuildCanonical(st: State, ds: seq<nat>)
    requires Canonical(st)
    ensures Canonical(Build(st, ds)) && |Build(st, ds).out| == |st.out| + |ds|
    decreases |ds|
  {
    hide Insert, Canonical;
    if ds != [] {
      InsertCanonical(st, ds[0]);
      BuildCanonical(Insert(st, st.i + ds[0]), ds[1..]);
    }
  }

  /** The delta that leads from one state to the next is determined by both. */
  lemma SameDelta(st: State, d: nat, e: nat)
    requires Insert(st, st.i + d).n == Insert(st, st.i + e).n && Insert(st, st.i + d).i == Insert(st, st.i + e).i
    ensures d == e
  {
    DivMod(st.i + d, |st.out| + 1);
    DivMod(st.i + e, |st.out| + 1);
  }

  /** Different deltas build different outputs. */
  lemma {:induction false} BuildInjective(st: State, ds: seq<nat>, es: seq<nat>)
    requires Canonical(st) && Build(st, ds).out == Build(st, es).out
    ensures ds == es
    decreases |ds|
  {
    hide Insert, Canonical, Build;
    BuildCanonical(st, ds);
    BuildCanonical(st, es);
    if ds != [] {
      var d0, e0 := ds[..|ds| - 1], es[..|es| - 1];
      var d, e := ds[|ds| - 1], es[|es| - 1];
      assert ds == d0 + [d] && es == e0 + [e];
      BuildAppend(st, d0, d);
      BuildAppend(st, e0, e);
      BuildCanonical(st, d0);
      BuildCanonical(st, e0);
      InsertCanonical(Build(st, d0), d);
      InsertCanonical(Build(st, e0), e);
      SameLast(Build(st, ds), Build(st, es));
      BuildInjective(st, d0, e0);
      SameDelta(Build(st, d0), d, e);
    }
  }

  // ------------------------------------------------------- the shortcut and the ends

  /** A pass for a value that does not occur is not looked at. */
  lemma {:induction false} EmptyPassRefuses(s: seq<Rune>, n: int, idx: nat, d: nat)
    requires idx <= |s| && n <= MAX_RUNE && n !in s
    ensures Pos(s, n, idx) <= Pos(s, n, |s|)
    ensures RefusesFrom(s, n, idx, d) == RefusesFrom(s, n + 1, 0, d + Pos(s, n, |s|) - Pos(s, n, idx) + 1)
    decreases |s| - idx
  {
    if idx < |s| {
      PosStep(s, n, idx);
      EmptyPassRefuses(s, n, idx + 1, d + (if s[idx] < n then 1 else 0));
    }
  }

  /** A pass that finds nothing more counts the smaller code points left, and one. */
  lemma {:induction false} EmptyPass(s: seq<Rune>, n: int, idx: nat, d: nat)
    requires idx <= |s| && n <= MAX_RUNE && forall j :: idx <= j < |s| ==> s[j] != n
    ensures Pos(s, n, idx) <= Pos(s, n, |s|)
    ensures DeltasFrom(s, n, idx, d) == DeltasFrom(s, n + 1, 0, d + Pos(s, n, |s|) - Pos(s, n, idx) + 1)
    decreases |s| - idx
  {
    if idx < |s| {
      PosStep(s, n, idx);
      EmptyPass(s, n, idx + 1, d + (if s[idx] < n then 1 else 0));
    }
  }

  /** The shortcut of the source: passes for values that do not occur count h + 1 each. */
  lemma {:induction false} JumpDeltas(s: seq<Rune>, n: int, m: int, d: nat)
    requires n <= m <= MAX_RUNE && forall j :: 0 <= j < |s| && n <= s[j] ==> m <= s[j]
    ensures DeltasFrom(s, n, 0, d) == DeltasFrom(s, m, 0, d + Times(m - n, |Done(s, n, 0)| + 1))
    ensures RefusesFrom(s, n, 0, d) == RefusesFrom(s, m, 0, d + Times(m - n, |Done(s, n, 0)| + 1))
    decreases m - n
  {
    hide DeltasFrom, RefusesFrom;
    if n < m {
      EmptyPass(s, n, 0, d);
      EmptyPassRefuses(s, n, 0, d);
      assert s[..0] == [] && s[..|s|] == s;
      var h := |Done(s, n, 0)|;
      DoneCong(s, n, |s|, n, 0);
      DoneCong(s, n, 0, n + 1, 0);
      assert |Done(s, n + 1, 0)| == h;
      JumpDeltas(s, n + 1, m, d + h + 1);
      assert Times(m - n, h + 1) == Times(m - (n + 1), h + 1) + h + 1;
    }
  }

  lemma {:induction false} NoMoreDeltas(s: seq<Rune>, n: int, idx: nat, d: nat)
    requires idx <= |s| && forall j :: 0 <= j < |s| ==> s[j] < n
    ensures DeltasFrom(s, n, idx, d) == [] && !RefusesFrom(s, n, idx, d)
    decreases MAX_RUNE + 1 - n, |s| - idx
  {
    if n > MAX_RUNE {
    } else if idx == |s| {
      NoMoreDeltas(s, n + 1, 0, d + 1);
    } else {
      NoMoreDeltas(s, n, idx + 1, d + 1);
    }
  }

  /** The count on the way to an occurrence still ahead grows by what lies between. */
  lemma {:induction false} NextDelta(s: seq<Rune>, n: int, idx: nat, d: nat, j: nat)
    requires idx <= j < |s| && s[j] == n && n <= MAX_RUNE
    ensures DeltasFrom(s, n, idx, d) != [] && d <= DeltasFrom(s, n, idx, d)[0] <= d + |s| - idx
    decreases |s| - idx
  {
    if s[idx] != n { NextDelta(s, n, idx + 1, d + (if s[idx] < n then 1 else 0), j); }
  }

  // ------------------------------------------------------------- int32 deltas

  /** What an int32 counter holds of `d` when that is not negative. */
  function Low(d: nat): nat { d % TWO_32 }

  function LowAll(ds: seq<nat>): (r: seq<nat>)
    ensures |r| == |ds| && forall i :: 0 <= i < |ds| ==> r[i] == Low(ds[i])
  {
    if ds == [] then [] else LowAll(ds[..|ds| - 1]) + [Low(ds[|ds| - 1])]
  }

  lemma WrapIs(x: int, k: int)
    requires InInt32(x - k * TWO_32)
    ensures Wrap32(x) == x - k * TWO_32
  {
  }

  lemma WrapSplit(x: int) returns (k: int)
    ensures x == Wrap32(x) + k * TWO_32
  {
    k := (x + 0x8000_0000) / TWO_32;
  }

  lemma WrapAdd(a: int, b: int)
    ensures Wrap32(Wrap32(a) + b) == Wrap32(a + b) == Wrap32(Wrap32(a) + Wrap32(b))
  {
    var k := WrapSplit(a);
    var l := WrapSplit(b);
    var m := WrapSplit(a + b);
    hide Wrap32;
    WrapIs(Wrap32(a) + b, m - k);
    WrapIs(Wrap32(a) + Wrap32(b), m - k - l);
  }

  lemma WrapLow(d: nat)
    ensures Wrap32(d) >= 0 ==> Wrap32(d) == Low(d) <= MAX_INT32
  {
    var k := WrapSplit(d);
    hide Wrap32;
    if Wrap32(d) >= 0 { LowIs(d, k, Wrap32(d)); }
  }

  lemma LowIs(d: nat, k: int, r: nat)
    requires d == r + k * TWO_32 && r < TWO_32
    ensures Low(d) == r
  {
  }

  /** What is written so far leads the decoder through the int32 values of the deltas so far. */
  ghost predicate Written(basic: seq<byte>, ds: seq<nat>, ext: seq<byte>, bias: int) {
    var st := Build(Start(basic), LowAll(ds));
    && (forall d <- ds :: Wrap32(d) >= 0)
    && Run(Start(basic), ext) == Some(st)
    && 0 <= bias <= MAX_INT32 && st.bias == bias
    && (st.i == 0 <==> ds == []) && |st.out| == |basic| + |ds|
    && DELIMITER !in ext
  }

  lemma WrittenMore(basic: seq<byte>, ds: seq<nat>, ext: seq<byte>, bias: int, d: nat, bias2: int)
    requires Written(basic, ds, ext, bias) && Wrap32(d) >= 0
    requires bias2 == Adapt(Low(d), |basic| + |ds| + 1, ds == []) && bias2 <= MAX_INT32
    ensures Written(basic, ds + [d], ext + VarDigits(Low(d), BASE, bias), bias2)
  {
    hide Adapt, VarDigits, Run, Build;
    var st := Build(Start(basic), LowAll(ds));
    RunDelta(Start(basic), ext, st, Low(d));
    BuildAppend(Start(basic), LowAll(ds), Low(d));
    assert (ds + [d])[..|ds|] == ds;
    assert LowAll(ds + [d]) == LowAll(ds) + [Low(d)];
    DivMod(st.i + Low(d), |st.out| + 1);
  }

  // ---------------------------------------------------------------- the encoder

  /** The variables of `encode` other than the code point value and the position. */
  datatype Enc = Enc(ext: seq<byte>, delta: int, bias: int, h: int, remaining: int)

  /** The encoder at (n, idx): `ds` are the deltas passed, `d` the count since, delta its int32 value. */
  ghost predicate At(s: seq<Rune>, basic: seq<byte>, n: int, idx: nat, e: Enc, ds: seq<nat>, d: nat)
    requires idx <= |s|
  {
    && INITIAL_N <= n <= MAX_RUNE + 1 && |s| <= MAX_INT32
    && Deltas(s) == ds + DeltasFrom(s, n, idx, d)
    && Refuses(s) == RefusesFrom(s, n, idx, d)
    && e.delta == Wrap32(d)
    && e.h == |Done(s, n, idx)| == |basic| + |ds| && e.remaining == |s| - e.h
    && Written(basic, ds, e.ext, e.bias)
  }

  /** A count of the label whose int32 value is negative, at most the label's length before a delta. */
  predicate Refusal(s: seq<Rune>, x: nat, i: nat) {
    Wrap32(x) < 0 && i < |Deltas(s)| && x <= Deltas(s)[i] <= x + |s|
  }

  /** The number of handled code points. */
  lemma DoneCount(s: seq<Rune>, n: int, idx: nat)
    requires idx < |s|
    ensures |Done(s, n, idx + 1)| == |Done(s, n, idx)| + (if s[idx] == n then 1 else 0)
  {
    if s[idx] == n {
      DoneInsert(s, n, idx);
    } else {
      DoneCong(s, n, idx, n, idx + 1);
    }
  }

  /** Encoding the code point at `idx`, when it is `n`. */
  method EmitRune(s: seq<Rune>, ghost basic: seq<byte>, b: int, n: int, idx: nat, e: Enc, ghost ds: seq<nat>, ghost d: nat)
    returns (e2: Enc)
    requires idx < |s| && s[idx] == n && n <= MAX_RUNE && 0 <= e.delta && b == |basic|
    requires At(s, basic, n, idx, e, ds, d)
    ensures At(s, basic, n, idx + 1, e2, ds + [d], 0)
  {
    hide Written, Adapt, VarDigits, DeltasFrom, RefusesFrom;
    UnfoldDeltas(s, n, idx, d);
    DoneCount(s, n, idx);
    DonePending(s, n, idx, idx);
    WrapLow(d);
    BiasFits(basic, ds, e.ext, e.bias);
    var digits := EmitDelta(e.delta, e.bias);
    var bias := ComputeAdapt(e.delta, Fits32(e.h + 1), e.h == b);
    WrittenMore(basic, ds, e.ext, e.bias, d, bias);
    e2 := Enc(e.ext + digits, 0, bias, Fits32(e.h + 1), Fits32(e.remaining - 1));
    assert ds + [d] + DeltasFrom(s, n, idx + 1, 0) == ds + DeltasFrom(s, n, idx, d);
  }

  lemma BiasFits(basic: seq<byte>, ds: seq<nat>, ext: seq<byte>, bias: int)
    requires Written(basic, ds, ext, bias)
    ensures 0 <= bias <= MAX_INT32
  {
  }

  /** Passing over a code point other than `n`: a smaller one increments delta, in int32. */
  method SkipRune(s: seq<Rune>, ghost basic: seq<byte>, n: int, idx: nat, e: Enc, ghost ds: seq<nat>, ghost d: nat)
    returns (e2: Enc, ghost d2: nat)
    requires idx < |s| && s[idx] != n && n <= MAX_RUNE && 0 <= e.delta
    requires At(s, basic, n, idx, e, ds, d)
    ensures At(s, basic, n, idx + 1, e2, ds, d2) && d <= d2 <= d + 1 && (e2.delta < 0 && e.delta >= 0 ==> s[idx] < n)
  {
    hide Written, DeltasFrom, RefusesFrom, Wrap32, Done;
    UnfoldDeltas(s, n, idx, d);
    DoneCount(s, n, idx);
    e2, d2 := e, d;
    if s[idx] < n {
      WrapAdd(d, 1);
      d2 := d + 1;
      e2 := e.(delta := Wrap32(e.delta + 1));
    }
  }

  /** `delta++` and `n++` at the end of a pass. */
  method EndPass(s: seq<Rune>, ghost basic: seq<byte>, ghost n: int, e: Enc, ghost ds: seq<nat>, ghost d: nat) returns (e2: Enc)
    requires n <= MAX_RUNE && 0 <= e.delta && At(s, basic, n, |s|, e, ds, d)
    ensures At(s, basic, n + 1, 0, e2, ds, d + 1)
  {
    hide Written, DeltasFrom, RefusesFrom, Wrap32, Done;
    UnfoldDeltas(s, n, |s|, d);
    DoneCong(s, n, |s|, n + 1, 0);
    WrapAdd(d, 1);
    e2 := e.(delta := Wrap32(e.delta + 1));
  }

  /** A negative delta on the way to an occurrence of `n`. */
  lemma Refused(s: seq<Rune>, basic: seq<byte>, n: int, idx: nat, e: Enc, ds: seq<nat>, d: nat, j: nat)
    requires idx <= j < |s| && s[j] == n && n <= MAX_RUNE && At(s, basic, n, idx, e, ds, d) && e.delta < 0
    ensures Refusal(s, d, |ds|) && Refuses(s)
  {
    hide Written, DeltasFrom, RefusesFrom, Done, Wrap32;
    NextDelta(s, n, idx, d, j);
    UnfoldDeltas(s, n, idx, d);
    assert Deltas(s)[|ds|] == DeltasFrom(s, n, idx, d)[0];
  }

  /** One pass over the label for the code point value `n`; it stops at a negative delta. */
  method Pass(s: seq<Rune>, ghost basic: seq<byte>, b: int, n: int, e0: Enc, ghost ds0: seq<nat>, ghost d0: nat)
    returns (ok: bool, e: Enc, ghost ds: seq<nat>, ghost d: nat)
    requires n <= MAX_RUNE && 0 <= e0.delta && b == |basic| && n in s
    requires At(s, basic, n, 0, e0, ds0, d0)
    ensures ok ==> At(s, basic, n + 1, 0, e, ds, d)
    ensures !ok ==> Refusal(s, d, |ds|) && Refuses(s)
  {
    hide At, Refusal, Refuses;
    e, ds, d := e0, ds0, d0;
    ghost var j :| 0 <= j < |s| && s[j] == n;
    for idx := 0 to |s|
      invariant 0 <= e.delta && At(s, basic, n, idx, e, ds, d)
      invariant d <= idx || idx <= j
    {
      if s[idx] == n {
        e := EmitRune(s, basic, b, n, idx, e, ds, d);
        ds, d := ds + [d], 0;
        DeltaIs(s, basic, n, idx + 1, e, ds, d);
      } else {
        e, d := SkipRune(s, basic, n, idx, e, ds, d);
        DeltaIs(s, basic, n, idx + 1, e, ds, d);
        if e.delta < 0 {
          Refused(s, basic, n, idx + 1, e, ds, d, j);
          return false, e, ds, d;
        }
      }
    }
    e := EndPass(s, basic, n, e, ds, d);
    d := d + 1;
    ok := true;
  }

  /** A small count is its own int32 value. */
  lemma DeltaIs(s: seq<Rune>, basic: seq<byte>, n: int, idx: nat, e: Enc, ds: seq<nat>, d: nat)
    requires idx <= |s| && At(s, basic, n, idx, e, ds, d)
    ensures d <= |s| ==> e.delta == d
  {
  }

  lemma UnfoldDeltas(s: seq<Rune>, n: int, idx: nat, d: nat)
    requires idx <= |s| && n <= MAX_RUNE
    ensures DeltasFrom(s, n, idx, d)
         == if idx == |s| then DeltasFrom(s, n + 1, 0, d + 1)
            else if s[idx] < n then DeltasFrom(s, n, idx + 1, d + 1)
            else if s[idx] == n then [d] + DeltasFrom(s, n, idx + 1, 0)
            else DeltasFrom(s, n, idx + 1, d)
    ensures Wrap32(d) >= 0 && idx == |s| ==> (RefusesFrom(s, n, idx, d) <==> RefusesFrom(s, n + 1, 0, d + 1))
    ensures Wrap32(d) >= 0 && idx < |s| ==>
      (RefusesFrom(s, n, idx, d) <==> RefusesFrom(s, n, idx + 1, if s[idx] < n then d + 1 else if s[idx] == n then 0 else d))
    ensures Wrap32(d) < 0 && n in s ==> RefusesFrom(s, n, idx, d)
  {
  }

  /** The value to go on with: the smallest code point still to be encoded. */
  method NextRune(s: seq<Rune>, n: int) returns (m: int)
    requires |Done(s, n, 0)| < |s|
    ensures n <= m <= MAX_RUNE && m in s
    ensures forall j :: 0 <= j < |s| && n <= s[j] ==> m <= s[j]
  {
    m := MinAtLeast(s, n);
    if forall j :: 0 <= j < |s| ==> s[j] < n {
      DoneAll(s, n, 0);
    }
  }

  /** One turn of the main loop: go to the next code point value and encode its occurrences. */
  method Round(s: seq<Rune>, ghost basic: seq<byte>, b: int, n: int, e0: Enc, ghost ds0: seq<nat>, ghost d0: nat)
    returns (ok: bool, n2: int, e: Enc, ghost ds: seq<nat>, ghost d: nat)
    requires e0.remaining != 0 && b == |basic|
    requires At(s, basic, n, 0, e0, ds0, d0)
    ensures ok ==> n < n2 && At(s, basic, n2, 0, e, ds, d)
    ensures !ok ==> Refusal(s, d, |ds|) && Refuses(s)
  {
    hide At, Refusal, Refuses;
    Counts(s, basic, n, 0, e0, ds0, d0);
    var m := NextRune(s, n);
    e, d := Jump(s, basic, n, m, e0, ds0, d0);
    ds := ds0;
    n2 := m + 1;
    if e.delta < 0 {
      ghost var j :| 0 <= j < |s| && s[j] == m;
      Refused(s, basic, m, 0, e, ds, d, j);
      return false, n2, e, ds, d;
    }
    ok, e, ds, d := Pass(s, basic, b, m, e, ds, d);
  }

  lemma Counts(s: seq<Rune>, basic: seq<byte>, n: int, idx: nat, e: Enc, ds: seq<nat>, d: nat)
    requires idx <= |s| && At(s, basic, n, idx, e, ds, d)
    ensures e.h == |Done(s, n, idx)| && e.remaining == |s| - e.h && INITIAL_N <= n <= MAX_RUNE + 1
  {
  }

  /** `delta += (m - n) * (h + 1)`, in int32. */
  method Jump(s: seq<Rune>, ghost basic: seq<byte>, n: int, m: int, e: Enc, ghost ds: seq<nat>, ghost d: nat)
    returns (e2: Enc, ghost d2: nat)
    requires n <= m <= MAX_RUNE && forall j :: 0 <= j < |s| && n <= s[j] ==> m <= s[j]
    requires At(s, basic, n, 0, e, ds, d)
    ensures At(s, basic, m, 0, e2, ds, d2)
  {
    hide Written, DeltasFrom, RefusesFrom, Wrap32, Done;
    JumpDeltas(s, n, m, d);
    DoneCong(s, n, 0, m, 0);
    TimesIsProduct(m - n, e.h + 1);
    var product := (m - n) * (e.h + 1);
    d2 := d + product;
    WrapAdd(d, product);
    e2 := e.(delta := Wrap32(e.delta + Wrap32(product)));
  }

  // ------------------------------------------------------------------ the result

  /** Where the decoder splits what the encoder wrote. */
  lemma DecodeParts(basic: seq<byte>, ext: seq<byte>, head: seq<byte>)
    requires DELIMITER !in ext && head == if |basic| > 0 then basic + [DELIMITER] else []
    ensures LastDelimiter(head + ext) == if |basic| > 0 then |basic| else -1
    ensures |basic| > 0 ==> (head + ext)[..|basic|] == basic && (head + ext)[|basic| + 1..] == ext
  {
    var bytes := head + ext;
    if |basic| > 0 { assert bytes[|basic|] == DELIMITER; }
  }

  /** What the written bytes decode to. */
  lemma DecodesTo(prefix: seq<byte>, basic: seq<byte>, ds: seq<nat>, ext: seq<byte>, bias: int, head: seq<byte>)
    requires Written(basic, ds, ext, bias) && forall j :: 0 <= j < |basic| ==> basic[j] < INITIAL_N
    requires head == if |basic| > 0 then basic + [DELIMITER] else []
    ensures prefix <= prefix + head + ext
    ensures Decode((prefix + head + ext)[|prefix|..]) == Some(Build(Start(basic), LowAll(ds)).out)
  {
    hide Run, Build, LastDelimiter, Start;
    assert (prefix + head + ext)[|prefix|..] == head + ext;
    DecodeParts(basic, ext, head);
    if |basic| == 0 {
      assert basic == [];
      assert (head + ext)[0..] == ext;
    }
  }

  /** Deltas cut to int32 build the label if and only if nothing was cut. */
  lemma LowBuilds(s: seq<Rune>)
    requires forall d <- Deltas(s) :: Wrap32(d) >= 0
    ensures Build(Start(BasicOf(s)), LowAll(Deltas(s))).out == s <==> Fits(s)
  {
    hide Deltas, Build, Wrap32;
    var st, ds := Start(BasicOf(s)), Deltas(s);
    assert Build(st, ds).out == s by { LabelBuilds(s); }
    if Build(st, LowAll(ds)).out == s {
      BuildInjective(st, LowAll(ds), ds);
      forall d <- ds ensures d <= MAX_INT32 {
        var i :| 0 <= i < |ds| && ds[i] == d;
        WrapLow(d);
      }
    }
    if Fits(s) { LowSame(ds); }
  }

  lemma LowSame(ds: seq<nat>)
    requires forall d <- ds :: d <= MAX_INT32
    ensures LowAll(ds) == ds
  {
    forall i | 0 <= i < |ds| ensures LowAll(ds)[i] == ds[i] { assert ds[i] in ds; LowIs(ds[i], 0, ds[i]); }
  }

  lemma LabelBuilds(s: seq<Rune>)
    ensures Build(Start(BasicOf(s)), Deltas(s)).out == s
  {
    StartLinked(s, BasicOf(s));
    DeltasBuild(s, Start(BasicOf(s)), INITIAL_N, 0, 0);
  }

  predicate Decodes(r: Result, prefix: seq<byte>, s: seq<int>) {
    r.Encoded? && prefix <= r.bytes && Decode(r.bytes[|prefix|..]) == Some(s)
  }

  /**
   `encode`. Every int32 operation wraps where Go's does. The result decodes to the label if and
   only if every delta of the label fits; an error is returned if and only if some count on the way
   is negative as int32, which is then at most the label's length before a delta; and any other
   result decodes to what the deltas cut to int32 build.
   */
  method Encode(prefix: seq<byte>, s: seq<Rune>) returns (r: Result)
    requires |s| <= MAX_INT32
    ensures Decodes(r, prefix, s) <==> Fits(s)
    ensures r.InvalidLabel? <==> Refuses(s)
    ensures r.InvalidLabel? ==> exists x: nat, i: nat :: Refusal(s, x, i)
    ensures r.Encoded? ==> forall d <- Deltas(s) :: Wrap32(d) >= 0
    ensures r.Encoded? ==> Decodes(r, prefix, Build(Start(BasicOf(s)), LowAll(Deltas(s))).out)
  {
    hide At, Refusal, Refuses;
    var basic, remaining := CopyBasic(s);
    var head := basic;
    if |basic| > 0 {
      head := head + [DELIMITER];
    }
    var e, n := Enc([], 0, INITIAL_BIAS, |basic|, remaining), INITIAL_N;
    ghost var ds, d := [], 0;
    AtStart(s, basic);
    while e.remaining != 0
      invariant At(s, basic, n, 0, e, ds, d)
      decreases MAX_RUNE + 1 - n
    {
      Counts(s, basic, n, 0, e, ds, d);
      var ok;
      ok, n, e, ds, d := Round(s, basic, |basic|, n, e, ds, d);
      if !ok {
        RefusalIsNoFit(s, d, |ds|);
        return InvalidLabel;
      }
      Counts(s, basic, n, 0, e, ds, d);
    }
    AtEnd(s, basic, n, e, ds, d);
    r := Encoded(prefix + head + e.ext);
    DecodesTo(prefix, basic, ds, e.ext, e.bias, head);
    LowBuilds(s);
  }

  lemma AtStart(s: seq<Rune>, basic: seq<byte>)
    requires basic == Done(s, INITIAL_N, 0) && |s| <= MAX_INT32
    ensures At(s, basic, INITIAL_N, 0, Enc([], 0, INITIAL_BIAS, |basic|, |s| - |basic|), [], 0)
  {
  }

  lemma AtEnd(s: seq<Rune>, basic: seq<byte>, n: int, e: Enc, ds: seq<nat>, d: nat)
    requires At(s, basic, n, 0, e, ds, d) && e.remaining == 0
    ensures Deltas(s) == ds && !Refuses(s) && Written(basic, ds, e.ext, e.bias) && forall d <- ds :: Wrap32(d) >= 0
  {
    if j :| 0 <= j < |s| && s[j] >= n { DonePending(s, n, 0, j); }
    NoMoreDeltas(s, n, 0, d);
  }

  lemma RefusalIsNoFit(s: seq<Rune>, x: nat, i: nat)
    requires Refusal(s, x, i)
    ensures !Fits(s)
  {
    assert Deltas(s)[i] in Deltas(s);
  }

  // ------------------------------------------------------------- labels that do not fit

  const LETTER: Rune := 97

  function Letters(k: nat): (r: seq<Rune>)
    ensures |r| == k && forall j :: 0 <= j < k ==> r[j] == LETTER
  {
    seq(k, _ => LETTER)
  }

  /** `k` letters and the largest code point. */
  function HighLabel(k: nat): seq<Rune> { Letters(k) + [MAX_RUNE] }

  lemma {:induction false} CountLetters(s: seq<Rune>, idx: nat, d: nat)
    requires idx < |s| && s == HighLabel(|s| - 1)
    ensures DeltasFrom(s, MAX_RUNE, idx, d) == [d + |s| - 1 - idx]
    decreases |s| - idx
  {
    if idx < |s| - 1 {
      CountLetters(s, idx + 1, d + 1);
    } else {
      assert DeltasFrom(s, MAX_RUNE + 1, 0, 1) == [];
      assert DeltasFrom(s, MAX_RUNE, |s|, 0) == [];
    }
  }

  lemma {:induction false} CountLettersRefuses(s: seq<Rune>, idx: nat, d: nat)
    requires idx < |s| && s == HighLabel(|s| - 1) && forall x :: d <= x <= d + |s| - 1 - idx ==> Wrap32(x) >= 0
    ensures !RefusesFrom(s, MAX_RUNE, idx, d)
    decreases |s| - idx
  {
    if idx < |s| - 1 {
      CountLettersRefuses(s, idx + 1, d + 1);
    } else {
      assert !RefusesFrom(s, MAX_RUNE + 1, 0, 1);
      assert !RefusesFrom(s, MAX_RUNE, |s|, 0);
    }
  }

  /** A delta that is negative as int32 is refused. */
  lemma {:induction false} NegativeRefuses(s: seq<Rune>, n: int, idx: nat, d: nat, x: nat)
    requires idx <= |s| && x in DeltasFrom(s, n, idx, d) && Wrap32(x) < 0
    ensures RefusesFrom(s, n, idx, d)
    decreases MAX_RUNE + 1 - n, |s| - idx
  {
    hide Wrap32;
    if idx == |s| {
      NegativeRefuses(s, n + 1, 0, d + 1, x);
    } else if s[idx] != n || x != d {
      NegativeRefuses(s, n, idx + 1, if s[idx] < n then d + 1 else if s[idx] == n then 0 else d, x);
    }
  }

  lemma {:induction false} DoneLetters(k: nat)
    ensures Done(Letters(k), INITIAL_N, 0) == Letters(k)
  {
    DoneAll(Letters(k), INITIAL_N, 0);
  }

  lemma HighDeltas(k: nat)
    ensures Deltas(HighLabel(k)) == [(MAX_RUNE - INITIAL_N) * (k + 1) + k]
    ensures Done(HighLabel(k), INITIAL_N, 0) == Letters(k)
  {
    var s := HighLabel(k);
    DoneLetters(k);
    assert s[..k] == Letters(k) && Done(s, INITIAL_N, 0) == Letters(k) + [];
    JumpDeltas(s, INITIAL_N, MAX_RUNE, 0);
    TimesIsProduct(MAX_RUNE - INITIAL_N, k + 1);
    CountLetters(s, 0, Times(MAX_RUNE - INITIAL_N, k + 1));
  }

  /** 1927 is the best bound: a label with one code point more is refused. */
  lemma LongerIsRefused()
    ensures |HighLabel(MAX_LABEL)| == MAX_LABEL + 1 && !Fits(HighLabel(MAX_LABEL))
    ensures Refuses(HighLabel(MAX_LABEL))
  {
    HighDeltas(MAX_LABEL);
    var d := (MAX_RUNE - INITIAL_N) * (MAX_LABEL + 1) + MAX_LABEL;
    WrapIs(d, 1);
    assert d in Deltas(HighLabel(MAX_LABEL));
    NegativeRefuses(HighLabel(MAX_LABEL), INITIAL_N, 0, 0, d);
  }

  lemma HighRefuses(s: seq<Rune>, d: nat)
    requires s == HighLabel(3855) && d == 4295522303
    ensures !Refuses(s)
  {
    DoneLetters(3855);
    assert s[..3855] == Letters(3855) && Done(s, INITIAL_N, 0) == Letters(3855) + [];
    JumpDeltas(s, INITIAL_N, MAX_RUNE, 0);
    TimesIsProduct(MAX_RUNE - INITIAL_N, 3856);
    forall x | d - 3855 <= x <= d ensures Wrap32(x) >= 0 { WrapIs(x, 1); }
    CountLettersRefuses(s, 0, d - 3855);
  }

  /** A label of 3856 code points is not refused: its delta wraps to that of another label. */
  lemma LongerIsMistaken(s: seq<Rune>)
    requires s == HighLabel(3855)
    ensures !Fits(s) && !Refuses(s)
    ensures LowAll(Deltas(s)) == [555007]
    ensures Build(Start(BasicOf(s)), LowAll(Deltas(s))).out == Letters(3599) + [271] + Letters(256)
  {
    HighDeltas(3855);
    var d := 4295522303;
    assert Deltas(s) == [d];
    assert d in Deltas(s);
    LowIs(d, 1, 555007);
    HighRefuses(s, d);
    assert LowAll([d])[0] == Low(d);
    var st := Start(BasicOf(s));
    assert st.out == Letters(3855);
    TimesIsProduct(143, 3856);
    InsertIsInsertAt(st, 143, 3599, 555007);
    var u := InsertAt(st, 143, 3599, 555007);
    assert Letters(3855)[..3599] == Letters(3599) && Letters(3855)[3599..] == Letters(256);
    BuildOne(st, 555007);
  }

  lemma BuildOne(st: State, d: nat)
    ensures Build(st, [d]) == Insert(st, st.i + d)
  {
    hide Insert;
    BuildAppend(st, [], d);
    assert [] + [d] == [d];
    assert Build(st, []) == st;
  }
}
