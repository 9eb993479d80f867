/** The part of std::stringstream that the pre-allocation parser relies on, as libstdc++
    implements it in the "C" locale: formatted extraction of a char and of an int (with
    whitespace skipping on, and the base field cleared so that the base is taken from the
    text), and tellg. A stream is its input, a read position and the fail and eof bits. */
module TextStream {
  import opened Common
  import Hex

  /** isspace in the "C" locale: space, tab, newline, vertical tab, form feed, return. */
  predicate IsSpace(c: char)
  {
    c == ' ' || c == '\t' || c == '\n' || c == '\r' || c as int == 11 || c as int == 12
  }

  /** A digit of the base the number is being read in (8, 10, or 16 for any other value). */
  predicate IsDigitIn(c: char, base: nat)
  {
    if base == 8 then '0' <= c <= '7'
    else if base == 10 then '0' <= c <= '9'
    else Hex.IsHexDigit(c)
  }

  predicate AllDigitsIn(ds: string, base: nat)
  {
    forall i :: 0 <= i < |ds| ==> IsDigitIn(ds[i], base)
  }

  /** The value of a string of digits, most significant first. */
  function DigitsValue(ds: string, base: nat): nat
    requires AllDigitsIn(ds, base)
  {
    if ds == [] then 0 else DigitsValue(ds[..|ds| - 1], base) * base + Hex.DigitValue(ds[|ds| - 1])
  }

  /** Reading one more digit multiplies the value so far by the base and adds the digit. */
  lemma DigitsValueSnoc(s: string, start: nat, end: nat, base: nat)
    requires start <= end < |s|
    requires AllDigitsIn(s[start..end], base) && IsDigitIn(s[end], base)
    ensures AllDigitsIn(s[start..end + 1], base)
    ensures DigitsValue(s[start..end + 1], base) == DigitsValue(s[start..end], base) * base + Hex.DigitValue(s[end])
  {
    var ds := s[start..end + 1];
    assert |ds| == end + 1 - start;
    assert ds[..|ds| - 1] == s[start..end] by {
      forall i | 0 <= i < end - start
        ensures ds[..|ds| - 1][i] == s[start..end][i]
      {
        assert ds[i] == s[start + i];
      }
    }
    assert ds[|ds| - 1] == s[end];
  }

  datatype StreamState = StreamState(input: string, pos: nat, fail: bool, eof: bool)
  {
    /** ios::good(): neither failbit nor eofbit is set (badbit never arises here). */
    predicate Good() { !fail && !eof }

    predicate InBounds() { pos <= |input| }

    /** What is left to read. */
    function Rest(): string
      requires InBounds()
    {
      input[pos..]
    }
  }

  /** The first position at or after p that is not whitespace. */
  function SkipSpaces(s: string, p: nat): (q: nat)
    requires p <= |s|
    ensures p <= q <= |s|
    ensures q == |s| || !IsSpace(s[q])
    decreases |s| - p
  {
    if p == |s| || !IsSpace(s[p]) then p else SkipSpaces(s, p + 1)
  }

  /** The first position at or after p that does not hold a digit of the base. */
  function ScanDigits(s: string, p: nat, base: nat): (q: nat)
    requires p <= |s|
    ensures p <= q <= |s|
    ensures q == |s| || !IsDigitIn(s[q], base)
    decreases |s| - p
  {
    if p == |s| || !IsDigitIn(s[p], base) then p else ScanDigits(s, p + 1, base)
  }

  /** Every character ScanDigits passes over is a digit of the base. */
  lemma {:induction false} ScanDigitsAll(s: string, p: nat, base: nat)
    requires p <= |s|
    ensures AllDigitsIn(s[p..ScanDigits(s, p, base)], base)
    decreases |s| - p
  {
    if p < |s| && IsDigitIn(s[p], base) {
      ScanDigitsAll(s, p + 1, base);
      assert s[p..ScanDigits(s, p, base)] == [s[p]] + s[p + 1..ScanDigits(s, p + 1, base)];
    }
  }

  predicate IsX(c: char) { c == 'x' || c == 'X' }

  /** The sentry of a formatted extraction: on a stream that is not good it only sets
      failbit; otherwise it skips whitespace, and reaching the end sets eofbit and failbit.
      The extraction goes ahead exactly when the result is good. */
  function Sentry(st: StreamState): (r: StreamState)
    requires st.InBounds()
    ensures r.InBounds() && r.input == st.input && r.pos >= st.pos
    ensures r.Good() <==> st.Good() && SkipSpaces(st.input, st.pos) < |st.input|
    ensures r.Good() ==> r.pos == SkipSpaces(st.input, st.pos) && !IsSpace(r.input[r.pos])
  {
    if !st.Good() then st.(fail := true)
    else
      var p := SkipSpaces(st.input, st.pos);
      if p == |st.input| then st.(pos := p, eof := true, fail := true) else st.(pos := p)
  }

  /** `ss >> c` for a char: the first character that is not whitespace, or nothing (and the
      target left as it was) when the sentry fails. */
  function ExtractChar(st: StreamState): (r: (StreamState, Option<char>))
    requires st.InBounds()
    ensures r.0.InBounds() && r.0.input == st.input && r.0.pos >= st.pos
    ensures r.1.Some? <==> st.Good() && SkipSpaces(st.input, st.pos) < |st.input|
    ensures r.1.Some? ==>
      && r.0.Good()
      && r.0.pos == SkipSpaces(st.input, st.pos) + 1
      && r.1.value == st.input[r.0.pos - 1]
      && !IsSpace(r.1.value)
    ensures r.1.None? ==> r.0.fail
  {
    var t := Sentry(st);
    if !t.Good() then (t, None) else (t.(pos := t.pos + 1), Some(t.input[t.pos]))
  }

  /** The value num_get and operator>>(int&) store, and whether they set failbit: no digits
      at all (not even the leading zero of an octal prefix) gives 0 and fails; a value outside the
      range of int is clamped to INT_MIN or INT_MAX and fails (libstdc++ reads a long and then
      clamps it to int; the long's own clamping leaves the same result). */
  function IntResult(negative: bool, magnitude: nat, sawDigits: bool): (r: (int, bool))
    ensures IsInt32(r.0)
    ensures !r.1 ==> r.0 == (if negative then -(magnitude as int) else magnitude)
  {
    var v: int := if negative then -(magnitude as int) else magnitude;
    if !sawDigits then (0, true)
    else if v < INT_MIN then (INT_MIN, true)
    else if v > INT_MAX then (INT_MAX, true)
    else (v, false)
  }

  /** The base prefix of a number with the base field cleared, starting at p, as num_get's
      leading-zero loop reads it: a leading `0` selects base 8 and counts as a digit; one
      `x` or `X` right after it selects base 16 and withdraws that count, so that a
      hexadecimal digit must follow; anything else is base 10 from p. Gives the base,
      whether a digit was seen and where the digits start. */
  function Prefix(s: string, p: nat): (r: (nat, bool, nat))
    requires p <= |s|
    ensures r.0 == 8 || r.0 == 10 || r.0 == 16
    ensures r.0 == 16 <==> p + 1 < |s| && s[p] == '0' && IsX(s[p + 1])
    ensures r.0 == 10 <==> !(p < |s| && s[p] == '0')
    // only the zero of an octal prefix counts as a digit
    ensures r.1 <==> r.0 == 8
    // the prefix consumed: nothing, the `0`, or the `0` and exactly one `x`
    ensures r.2 == p + (if r.0 == 16 then 2 else if r.0 == 8 then 1 else 0)
  {
    if p < |s| && s[p] == '0' then
      if p + 1 < |s| && IsX(s[p + 1]) then (16, false, p + 2) else (8, true, p + 1)
    else (10, false, p)
  }

  /** `ss >> n` for an int, with `prior` the target's value, which a failed sentry leaves
      unchanged: an optional sign, the base prefix, then every digit of that base; reaching
      the end of the input sets eofbit. */
  function ExtractInt(st: StreamState, prior: int): (r: (StreamState, int))
    requires st.InBounds()
    ensures r.0.InBounds() && r.0.input == st.input && r.0.pos >= st.pos
    ensures !Sentry(st).Good() ==> r == (Sentry(st), prior)
    ensures Sentry(st).Good() ==> IsInt32(r.1)
    ensures IsInt32(prior) ==> IsInt32(r.1)
  {
    var t := Sentry(st);
    if !t.Good() then (t, prior) else NumGet(t)
  }

  /** num_get on a stream whose sentry succeeded, so that a character is next in line. */
  function NumGet(t: StreamState): (r: (StreamState, int))
    requires t.pos < |t.input|
    ensures r.0.InBounds() && r.0.input == t.input && r.0.pos >= t.pos && IsInt32(r.1)
  {
    var s := t.input;
    var negative := s[t.pos] == '-';
    var p1 := if s[t.pos] == '-' || s[t.pos] == '+' then t.pos + 1 else t.pos;
    var mag := ReadMagnitude(s, p1);
    var res := IntResult(negative, mag.2, mag.1);
    (t.(pos := mag.0, fail := res.1, eof := mag.0 == |s|), res.0)
  }

  /** The unsigned part of a number from p on: where it ends, whether any digit (or the
      leading zero of a prefix) was seen, and the value of its digits. */
  function ReadMagnitude(s: string, p: nat): (r: (nat, bool, nat))
    requires p <= |s|
    ensures p <= r.0 <= |s|
    ensures r.1 ==> r.0 > p
    ensures !r.1 ==> r.0 == p || (r.0 == p + 2 && s[p] == '0' && IsX(s[p + 1]))
  {
    var pre := Prefix(s, p);
    var end := ScanDigits(s, pre.2, pre.0);
    ScanDigitsAll(s, pre.2, pre.0);
    (end, pre.1 || end > pre.2, DigitsValue(s[pre.2..end], pre.0))
  }

  /** The decimal digits of m, most significant first, without leading zeros. */
  function NatDec(m: nat): (ds: string)
    ensures |ds| >= 1
  {
    var d := [('0' as int + m % 10) as char];
    if m < 10 then d else NatDec(m / 10) + d
  }

  /** A run of decimal digits with no superfluous leading zero, and its value. */
  predicate DecimalDigits(ds: string, m: nat)
  {
    && |ds| >= 1 && AllDigitsIn(ds, 10) && DigitsValue(ds, 10) == m
    && (ds[0] == '0' <==> m == 0) && (m == 0 ==> |ds| == 1)
  }

  /** NatDec writes m's value with no superfluous leading zero. */
  lemma {:induction false} NatDecDigits(m: nat)
    ensures DecimalDigits(NatDec(m), m)
    decreases m
  {
    if m >= 10 {
      NatDecDigits(m / 10);
      var ds := NatDec(m);
      assert ds[..|ds| - 1] == NatDec(m / 10);
    }
  }

  /** n in decimal, with a minus sign when it is negative. */
  function Dec(n: int): (s: string)
    ensures |s| >= 1
  {
    if n < 0 then "-" + NatDec(-n) else NatDec(n)
  }

  /** What may follow a number written in decimal so that extraction stops right after it:
      nothing, or a character that is not a decimal digit (and, after a lone 0, not an `x`,
      which would start a hexadecimal prefix). */
  predicate NumberEnds(n: int, r: string)
  {
    r == [] || (!('0' <= r[0] <= '9') && (n == 0 ==> !IsX(r[0])))
  }

  /** Scanning digits over a run of digits stops exactly at its end. */
  lemma {:induction false} ScanDigitsOver(s: string, p: nat, ds: string, base: nat)
    requires p + |ds| <= |s| && s[p..p + |ds|] == ds && AllDigitsIn(ds, base)
    requires p + |ds| == |s| || !IsDigitIn(s[p + |ds|], base)
    ensures ScanDigits(s, p, base) == p + |ds|
    decreases |ds|
  {
    if ds != [] {
      assert s[p] == ds[0];
      assert s[p + 1..p + 1 + |ds[1..]|] == ds[1..];
      ScanDigitsOver(s, p + 1, ds[1..], base);
    }
  }

  /** Decimal digits at p1, with a valid ending after them, are read exactly: the prefix
      and the digit scan stop at their end, and their value is m. */
  lemma ScanDecimal(s: string, p1: nat, ds: string, m: nat, r: string)
    requires p1 <= |s| && s[p1..] == ds + r && DecimalDigits(ds, m) && NumberEnds(m, r)
    ensures ReadMagnitude(s, p1) == (p1 + |ds|, true, m)
  {
    var end := p1 + |ds|;
    assert s[p1..end] == ds by {
      assert s[p1..][..|ds|] == s[p1..end];
    }
    assert end < |s| ==> s[end] == r[0] by {
      if end < |s| {
        assert s[p1..][|ds|] == s[end];
      }
    }
    assert s[p1] == ds[0];
    if m == 0 {
      assert Prefix(s, p1) == (8, true, p1 + 1);
      assert ScanDigits(s, p1 + 1, 8) == p1 + 1;
    } else {
      assert Prefix(s, p1) == (10, false, p1);
      ScanDigitsOver(s, p1, ds, 10);
    }
  }

  /** A number written in decimal, with a valid ending after it, is read back exactly:
      extraction consumes its text and gives its value, setting eofbit only when nothing
      follows. */
  lemma ExtractIntDec(st: StreamState, n: int, r: string, prior: int)
    requires st.InBounds() && st.Good() && st.Rest() == Dec(n) + r
    requires IsInt32(n) && NumberEnds(n, r)
    ensures ExtractInt(st, prior) == (st.(pos := st.pos + |Dec(n)|, eof := r == []), n)
    ensures st.input[st.pos + |Dec(n)|..] == r
  {
    assert st.input[st.pos] == Dec(n)[0];
    if n < 0 {
      DecNeg(n);
      ExtractIntNoSpace(st, prior);
      NumGetDecNeg(st, n, r);
    } else {
      NatDecDigits(n);
      ExtractIntNoSpace(st, prior);
      NumGetDecNonNeg(st, n, r);
    }
    RestAfter(st.input, st.pos, Dec(n), r);
  }

  /** What follows a known prefix of the text from p. */
  lemma RestAfter(s: string, p: nat, w: string, r: string)
    requires p <= |s| && s[p..] == w + r
    ensures p + |w| <= |s| && s[p + |w|..] == r
  {
    assert s[p..][|w|..] == s[p + |w|..];
  }

  /** The decimal text of a negative number is a minus sign and its magnitude's digits. */
  lemma DecNeg(n: int)
    requires n < 0
    ensures Dec(n) == "-" + NatDec(-n) && DecimalDigits(NatDec(-n), -n)
  {
    NatDecDigits(-n);
  }

  lemma NumGetDecNeg(t: StreamState, n: int, r: string)
    requires !t.fail && t.pos < |t.input| && t.input[t.pos..] == Dec(n) + r
    requires INT_MIN <= n < 0 && NumberEnds(n, r)
    ensures NumGet(t) == (t.(pos := t.pos + |Dec(n)|, eof := r == []), n)
  {
    DecNeg(n);
    assert Dec(n) + r == "-" + (NatDec(-n) + r);
    NumGetNeg(t, NatDec(-n), -n, r, |Dec(n)|, n);
  }

  lemma NumGetDecNonNeg(t: StreamState, n: int, r: string)
    requires !t.fail && t.pos < |t.input| && t.input[t.pos..] == Dec(n) + r
    requires 0 <= n <= INT_MAX && NumberEnds(n, r)
    ensures NumGet(t) == (t.(pos := t.pos + |Dec(n)|, eof := r == []), n)
  {
    NatDecDigits(n);
    NumGetNonNeg(t, NatDec(n), n, r, |Dec(n)|, n);
  }

  /** With no whitespace to skip, extraction of an int is num_get itself. */
  lemma ExtractIntNoSpace(st: StreamState, prior: int)
    requires st.InBounds() && st.Good() && st.pos < |st.input| && !IsSpace(st.input[st.pos])
    ensures ExtractInt(st, prior) == NumGet(st)
  {
    assert Sentry(st) == st;
  }

  /** NumGet, given what the unsigned part after the sign reads. */
  lemma NumGetFrom(t: StreamState, p1: nat, end: nat, m: nat, v: int, atEnd: bool)
    requires !t.fail && t.pos < |t.input|
    requires p1 == if t.input[t.pos] == '-' || t.input[t.pos] == '+' then t.pos + 1 else t.pos
    requires ReadMagnitude(t.input, p1) == (end, true, m) && atEnd == (end == |t.input|)
    requires v == (if t.input[t.pos] == '-' then -(m as int) else m) && IsInt32(v)
    ensures NumGet(t) == (t.(pos := end, eof := atEnd), v)
  {
  }

  lemma NumGetNonNeg(t: StreamState, ds: string, m: nat, r: string, len: nat, v: int)
    requires !t.fail && t.pos < |t.input| && t.input[t.pos..] == ds + r
    requires DecimalDigits(ds, m) && m <= INT_MAX && NumberEnds(m, r)
    requires len == |ds| && v == m
    ensures NumGet(t) == (t.(pos := t.pos + len, eof := r == []), v)
  {
    var s := t.input;
    var end := t.pos + |ds|;
    assert s[t.pos] == ds[0];
    ScanDecimal(s, t.pos, ds, m, r);
    assert |s[t.pos..]| == |ds| + |r|;
    NumGetFrom(t, t.pos, end, m, m, r == []);
  }

  lemma NumGetNeg(t: StreamState, ds: string, m: nat, r: string, len: nat, v: int)
    requires !t.fail && t.pos < |t.input| && t.input[t.pos..] == "-" + (ds + r)
    requires DecimalDigits(ds, m) && 1 <= m <= -INT_MIN && NumberEnds(m, r)
    requires len == 1 + |ds| && v == -(m as int)
    ensures NumGet(t) == (t.(pos := t.pos + len, eof := r == []), v)
  {
    var s := t.input;
    var end := t.pos + 1 + |ds|;
    assert s[t.pos] == '-';
    assert s[t.pos + 1..] == ds + r by {
      assert s[t.pos..][1..] == s[t.pos + 1..];
    }
    ScanDecimal(s, t.pos + 1, ds, m, r);
    assert |s[t.pos..]| == 1 + |ds| + |r|;
    NumGetFrom(t, t.pos + 1, end, m, -(m as int), r == []);
  }

  /** A character that cannot start a number, next in line: the extraction of an int reads
      nothing, stores 0 and sets failbit. */
  lemma ExtractIntNoNumber(st: StreamState, c: char, r: string, prior: int)
    requires st.InBounds() && st.Good() && st.Rest() == [c] + r
    requires !IsSpace(c) && !('0' <= c <= '9') && c != '+' && c != '-'
    ensures ExtractInt(st, prior) == (st.(fail := true), 0)
  {
    assert st.input[st.pos] == c;
    ExtractIntNoSpace(st, prior);
    assert ReadMagnitude(st.input, st.pos) == (st.pos, false, 0);
  }

  /** `0x` or `0X` with no hexadecimal digit after it: num_get consumes the prefix, stores 0
      and sets failbit. */
  lemma NumGetHexNoDigit(t: StreamState, x: char, r: string)
    requires t.pos < |t.input| && t.input[t.pos..] == ['0', x] + r
    requires IsX(x) && (r == [] || !Hex.IsHexDigit(r[0]))
    ensures NumGet(t) == (t.(pos := t.pos + 2, fail := true, eof := r == []), 0)
  {
    var s := t.input;
    assert s[t.pos] == '0' && s[t.pos + 1] == x;
    assert |s| == t.pos + 2 + |r|;
    assert r != [] ==> s[t.pos + 2] == r[0] by {
      if r != [] {
        assert s[t.pos..][2] == s[t.pos + 2];
      }
    }
    assert Prefix(s, t.pos) == (16, false, t.pos + 2);
    assert ScanDigits(s, t.pos + 2, 16) == t.pos + 2;
  }

  /** Only one `x` belongs to the prefix: in `0xx…` the second `x` ends the number, which
      then has no digit. */
  lemma NumGetDoubleX(t: StreamState, r: string)
    requires t.pos < |t.input| && t.input[t.pos..] == "0xx" + r
    ensures NumGet(t) == (t.(pos := t.pos + 2, fail := true, eof := false), 0)
  {
    assert t.input[t.pos..] == ['0', 'x'] + ("x" + r);
    NumGetHexNoDigit(t, 'x', "x" + r);
  }

  /** `0x` or `0X` and hexadecimal digits, followed by a character that is not one, read as
      the digits' hexadecimal value. */
  lemma NumGetHex(t: StreamState, x: char, ds: string, r: string)
    requires t.pos < |t.input| && t.input[t.pos..] == ['0', x] + (ds + r) && IsX(x)
    requires |ds| >= 1 && AllDigitsIn(ds, 16) && DigitsValue(ds, 16) <= INT_MAX
    requires r == [] || !Hex.IsHexDigit(r[0])
    ensures var g := NumGet(t);
      g.0 == t.(pos := t.pos + 2 + |ds|, fail := false, eof := r == []) && g.1 == DigitsValue(ds, 16)
  {
    var m := DigitsValue(ds, 16);
    var end := t.pos + 2 + |ds|;
    assert t.input[t.pos] == '0';
    ScanHex(t.input, t.pos, x, ds, m, r);
    assert |t.input| == end + |r|;
    assert IntResult(false, m, true) == (m, false);
  }

  /** The unsigned part `0x` and hexadecimal digits ends after the digits, with their value. */
  lemma ScanHex(s: string, p: nat, x: char, ds: string, m: nat, r: string)
    requires p <= |s| && s[p..] == ['0', x] + (ds + r) && IsX(x)
    requires |ds| >= 1 && AllDigitsIn(ds, 16) && DigitsValue(ds, 16) == m
    requires r == [] || !Hex.IsHexDigit(r[0])
    ensures var rm := ReadMagnitude(s, p); rm.0 == p + 2 + |ds| && rm.1 && rm.2 == m
  {
    var q := p + 2;
    assert s[p] == '0' && s[p + 1] == x;
    assert s[q..] == ds + r by {
      assert s[p..][2..] == s[q..];
    }
    assert s[q..q + |ds|] == ds by {
      assert s[q..][..|ds|] == s[q..q + |ds|];
    }
    assert q + |ds| < |s| ==> s[q + |ds|] == r[0] by {
      if q + |ds| < |s| {
        assert s[q..][|ds|] == s[q + |ds|];
      }
    }
    assert Prefix(s, p) == (16, false, q);
    ScanDigitsOver(s, q, ds, 16);
    assert s[q..ScanDigits(s, q, 16)] == ds;
  }

  /** On a good stream, `0x` with no hexadecimal digit after it stores 0 and fails the
      stream, past the prefix. */
  lemma ExtractIntHexNoDigit(st: StreamState, x: char, r: string, prior: int)
    requires st.InBounds() && st.Good() && st.Rest() == ['0', x] + r
    requires IsX(x) && (r == [] || !Hex.IsHexDigit(r[0]))
    ensures ExtractInt(st, prior) == (st.(pos := st.pos + 2, fail := true, eof := r == []), 0)
  {
    assert st.input[st.pos] == '0';
    ExtractIntNoSpace(st, prior);
    NumGetHexNoDigit(st, x, r);
  }

  /** Once failbit is set, `>> c` reads nothing. */
  lemma ExtractCharFailed(st: StreamState)
    requires st.InBounds() && st.fail
    ensures ExtractChar(st).1 == None
  {
  }

  /** A character that is not whitespace, next in line, is what `>> c` reads. */
  lemma ExtractCharAt(st: StreamState, c: char, r: string)
    requires st.InBounds() && st.Good() && st.Rest() == [c] + r && !IsSpace(c)
    ensures ExtractChar(st) == (st.(pos := st.pos + 1), Some(c))
    ensures ExtractChar(st).0.Rest() == r
  {
    assert st.input[st.pos] == c;
    assert st.input[st.pos + 1..] == st.Rest()[1..];
  }

  /** The state of a stringstream: `std::stringstream ss(toParse)`. */
  class StringStream {
    var state: StreamState

    constructor (s: string)
      ensures state == StreamState(s, 0, false, false)
    {
      state := StreamState(s, 0, false, false);
    }

    /** The sentry of a formatted extraction, skipping whitespace one character at a time. */
    method RunSentry()
      requires state.InBounds()
      modifies this
      ensures state == Sentry(old(state))
    {
      if !state.Good() {
        state := state.(fail := true);
        return;
      }
      var p := state.pos;
      while p < |state.input| && IsSpace(state.input[p])
        invariant state.pos <= p <= |state.input|
        invariant SkipSpaces(state.input, p) == SkipSpaces(state.input, state.pos)
        decreases |state.input| - p
      {
        p := p + 1;
      }
      if p == |state.input| {
        state := state.(pos := p, eof := true, fail := true);
      } else {
        state := state.(pos := p);
      }
    }

    /** `ss >> c` into a char. */
    method ReadChar() returns (c: Option<char>)
      requires state.InBounds()
      modifies this
      ensures (state, c) == ExtractChar(old(state))
    {
      RunSentry();
      if !state.Good() {
        return None;
      }
      c := Some(state.input[state.pos]);
      state := state.(pos := state.pos + 1);
    }

    /** `ss >> n` into an int whose current value is `prior`. */
    method ReadInt(prior: int) returns (n: int)
      requires state.InBounds()
      modifies this
      ensures (state, n) == ExtractInt(old(state), prior)
    {
      RunSentry();
      if !state.Good() {
        return prior;
      }
      var s := state.input;
      var p := state.pos;
      var negative := s[p] == '-';
      if s[p] == '-' || s[p] == '+' {
        p := p + 1;
      }
      var base, sawZero, start := ReadPrefix(s, p);
      var end, magnitude := ReadDigits(s, start, base);
      assert ReadMagnitude(s, p) == (end, sawZero || end > start, magnitude);
      var res := IntResult(negative, magnitude, sawZero || end > start);
      state := state.(pos := end, fail := res.1, eof := end == |s|);
      n := res.0;
    }

    /** The base prefix at p, read one character at a time. */
    static method ReadPrefix(s: string, p: nat) returns (base: nat, sawZero: bool, start: nat)
      requires p <= |s|
      ensures (base, sawZero, start) == Prefix(s, p)
    {
      base, sawZero, start := 10, false, p;
      if start < |s| && s[start] == '0' {
        sawZero, base := true, 8;
        start := start + 1;
        if start < |s| && IsX(s[start]) {
          sawZero, base := false, 16;
          start := start + 1;
        }
      }
    }

    /** The digits of the base from `start` on, and their value, accumulated one by one. */
    static method ReadDigits(s: string, start: nat, base: nat) returns (end: nat, magnitude: nat)
      requires start <= |s|
      ensures end == ScanDigits(s, start, base)
      ensures AllDigitsIn(s[start..end], base) && magnitude == DigitsValue(s[start..end], base)
    {
      end, magnitude := start, 0;
      while end < |s| && IsDigitIn(s[end], base)
        invariant start <= end <= |s|
        invariant ScanDigits(s, end, base) == ScanDigits(s, start, base)
        invariant AllDigitsIn(s[start..end], base)
        invariant magnitude == DigitsValue(s[start..end], base)
        decreases |s| - end
      {
        DigitsValueSnoc(s, start, end, base);
        magnitude := magnitude * base + Hex.DigitValue(s[end]);
        end := end + 1;
      }
    }

    /** tellg(): the read position, or -1 when the stream is not good (its sentry then
        sets failbit). */
    method TellG() returns (p: int)
      requires state.InBounds()
      modifies this
      ensures state.InBounds() && state.input == old(state.input) && state.pos == old(state.pos)
      ensures state.fail == (old(state.fail) || !old(state.Good())) && state.eof == old(state.eof)
      ensures p == if old(state.Good()) then old(state.pos) else -1
    {
      if state.Good() {
        return state.pos;
      }
      state := state.(fail := true);
      return -1;
    }
  }
}
