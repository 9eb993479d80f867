/** The pre-allocation argument of the decoder harness: a text of the form
    `WxH:mode:chroma:bitdepth:profile:level` read from a std::stringstream into the stream
    settings, with the dimensions rounded up to 64 and the result validated. Each way the
    parser throws is an error value here. */
module Prealloc {
  import opened Common
  import opened TextStream

  /** The runtime_error messages of the parser, one constructor each. */
  datatype PreallocError =
    | WrongSeparator        // "wrong prealloc arguments separator"
    | WrongChromaFormat     // "wrong prealloc chroma format"
    | WrongVideoFormat      // "wrong prealloc video format"
    | WrongArgumentsFormat  // "wrong prealloc arguments format"
    | WrongArguments        // "wrong prealloc arguments"

  /** The settings as the parser left them (it writes them in place, so a throw leaves the
      fields read so far), and the error it threw, if any. */
  datatype ParseOutcome = ParseOutcome(settings: StreamSettings, error: Option<PreallocError>)

  /** `(v + rnd - 1) / rnd * rnd` on C ints: the sum wraps around, the division truncates. */
  function RoundUp(v: int, rnd: int): (r: int)
    requires 1 <= rnd <= INT_MAX && IsInt32(v)
    ensures IsInt32(r)
  {
    var w := Wrap32(v + rnd - 1);
    CDivBounds(w, rnd);
    CDiv(w, rnd) * rnd
  }

  /** A value up to INT_MAX - rnd + 1 rounds up to a multiple of rnd less than rnd above it. */
  lemma RoundUpMultiple(v: int, rnd: int)
    requires 1 <= rnd <= INT_MAX && 0 <= v && v + rnd - 1 <= INT_MAX
    ensures RoundUp(v, rnd) % rnd == 0 && v <= RoundUp(v, rnd) < v + rnd
  {
    var w := v + rnd - 1;
    var q := w / rnd;
    assert RoundUp(v, rnd) == q * rnd;
    DivUnique(q * rnd, rnd, q);
  }

  /** ... and no multiple of rnd at or above v is below it: RoundUp is the least one. */
  lemma RoundUpLeast(v: int, rnd: int, k: int)
    requires 1 <= rnd <= INT_MAX && 0 <= v && v + rnd - 1 <= INT_MAX
    requires k * rnd >= v
    ensures RoundUp(v, rnd) <= k * rnd
  {
    var x := v + rnd - 1;
    var q := x / rnd;
    assert Wrap32(x) == x;
    DivBounds(x, rnd);
    assert RoundUp(v, rnd) == q * rnd;
    MulCancel(q, k, rnd);
    MulMono(q, k, rnd);
  }

  /** A value that is not positive, or so large that the sum wraps around, rounds to a
      value that is not positive. */
  lemma RoundUpNotPositive(v: int, rnd: int)
    requires 1 <= rnd <= INT_MAX && IsInt32(v)
    requires v <= 0 || v + rnd - 1 > INT_MAX
    ensures RoundUp(v, rnd) <= 0
  {
    var x := v + rnd - 1;
    var w := Wrap32(x);
    assert RoundUp(v, rnd) == CDiv(w, rnd) * rnd;
    if x > INT_MAX {
      DivUnique(x - INT_MIN, 0x1_0000_0000, 1);
      assert w == x - 0x1_0000_0000 < 0;
      CDivBounds(w, rnd);
    } else if w >= 0 {
      DivUnique(w, rnd, 0);
    } else {
      CDivBounds(w, rnd);
    }
  }

  /** RoundUp gives a positive value exactly for a positive value whose sum does not wrap. */
  lemma RoundUpPositive(v: int, rnd: int)
    requires 1 <= rnd <= INT_MAX && IsInt32(v)
    ensures RoundUp(v, rnd) > 0 <==> 0 < v && v + rnd - 1 <= INT_MAX
  {
    if 0 < v && v + rnd - 1 <= INT_MAX {
      RoundUpMultiple(v, rnd);
    } else {
      RoundUpNotPositive(v, rnd);
    }
  }

  /** A multiple of rnd rounds to itself. */
  lemma RoundUpExact(v: int, rnd: int)
    requires 1 <= rnd <= INT_MAX && 0 <= v && v + rnd - 1 <= INT_MAX && v % rnd == 0
    ensures RoundUp(v, rnd) == v
  {
    var k := v / rnd;
    assert v == k * rnd;
    DivUnique(v + rnd - 1, rnd, k);
  }

  /** An int that is a multiple of 64 leaves room for RoundUp's sum: it is at most
      INT_MAX - 63. */
  lemma Multiple64Room(v: int)
    requires 0 <= v <= INT_MAX && v % 64 == 0
    ensures v + 63 <= INT_MAX
  {
    var k := v / 64;
    assert v == k * 64;
    if k >= 0x200_0000 {
      MulMono(0x200_0000, k, 64);
    }
  }

  /** invalidPreallocSettings: a setting the parse did not provide, or one that is not
      positive. */
  predicate InvalidPreallocSettings(s: StreamSettings)
  {
    s.profileIdc <= 0 || s.level <= 0 || s.width <= 0 || s.height <= 0
    || s.chroma == ChromaMaxEnum || s.sequenceMode == SmMaxEnum
  }

  /** getExpectedSeparator: `ss >> sep` into an uninitialised char, then a comparison. When
      the extraction fails the char keeps an indeterminate value; the model treats that as a
      mismatch. */
  function ExpectSeparator(st: StreamState, expected: char): (r: (StreamState, bool))
    requires st.InBounds()
  {
    var e := ExtractChar(st);
    (e.0, e.1 == Some(expected))
  }

  /** The value a char of a zero-initialised array holds after `ss >> a[i]`. */
  function CharOrNul(c: Option<char>): char
  {
    if c.Some? then c.value else '\0'
  }

  /** n successive `ss >> a[i]` into a zero-initialised char array: the stream after them and
      the first n array elements. */
  function ReadToken(st: StreamState, n: nat): (r: (StreamState, string))
    requires st.InBounds()
    ensures r.0.InBounds() && r.0.input == st.input && |r.1| == n
  {
    if n == 0 then (st, [])
    else
      var before := ReadToken(st, n - 1);
      var e := ExtractChar(before.0);
      (e.0, before.1 + [CharOrNul(e.1)])
  }

  /** `string(a)` for a char array: the characters before the first NUL. */
  function CString(a: string): (s: string)
    ensures |s| <= |a| && s == a[..|s|]
    ensures forall i :: 0 <= i < |s| ==> s[i] != '\0'
    ensures |s| < |a| ==> a[|s|] == '\0'
  {
    if a == [] || a[0] == '\0' then [] else [a[0]] + CString(a[1..])
  }

  function ChromaFromToken(t: string): Option<ChromaMode>
  {
    if t == "400" then Some(Chroma400)
    else if t == "420" then Some(Chroma420)
    else if t == "422" then Some(Chroma422)
    else if t == "444" then Some(Chroma444)
    else None
  }

  function ModeFromToken(t: string): Option<SequenceMode>
  {
    if t == "unkwn" then Some(SmUnknown)
    else if t == "progr" then Some(SmProgressive)
    else if t == "inter" then Some(SmInterlaced)
    else None
  }

  /** What an accepted pre-allocation leaves: dimensions that are positive multiples of 64,
      a known chroma and sequence mode, and a positive profile and level. */
  predicate Accepted(s: StreamSettings)
  {
    !InvalidPreallocSettings(s) && s.width % 64 == 0 && s.height % 64 == 0
  }

  /** parsePreAllocArgs on `text`, starting from the settings `init`: the width, `x`, the
      height and `:`, then the rest. */
  function ParsePreAlloc(init: StreamSettings, text: string): (r: ParseOutcome)
    requires init.Int32Fields()
    ensures r.settings.Int32Fields()
    ensures r.error.None? ==> Accepted(r.settings)
    ensures r.error == Some(WrongArguments) ==> InvalidPreallocSettings(r.settings)
  {
    var w := ExtractInt(StreamState(text, 0, false, false), init.width);
    var s1 := init.(width := w.1);
    var x := ExpectSeparator(w.0, 'x');
    if !x.1 then ParseOutcome(s1, Some(WrongSeparator)) else
    var h := ExtractInt(x.0, init.height);
    var s2 := s1.(height := h.1);
    var c := ExpectSeparator(h.0, ':');
    if !c.1 then ParseOutcome(s2, Some(WrongSeparator)) else ParseTokens(s2, c.0)
  }

  /** The five characters of the mode, `:`, the three characters of the chroma, `:`, then
      the rest. */
  function ParseTokens(s: StreamSettings, st: StreamState): (r: ParseOutcome)
    requires s.Int32Fields() && st.InBounds()
    ensures r.settings.Int32Fields()
    ensures r.error.None? ==> Accepted(r.settings)
    ensures r.error == Some(WrongArguments) ==> InvalidPreallocSettings(r.settings)
  {
    var vm := ReadToken(st, 5);
    var c1 := ExpectSeparator(vm.0, ':');
    if !c1.1 then ParseOutcome(s, Some(WrongSeparator)) else
    var chroma := ReadToken(c1.0, 3);
    var c2 := ExpectSeparator(chroma.0, ':');
    if !c2.1 then ParseOutcome(s, Some(WrongSeparator)) else
    ParseNumbers(s, c2.0, vm.1 + ['\0'], chroma.1 + ['\0'])
  }

  /** The bit depth, `:`, the profile, `:` and the level, then the checks; `vm` and `chroma`
      are the char arrays read before. */
  function ParseNumbers(s: StreamSettings, st: StreamState, vm: string, chroma: string): (r: ParseOutcome)
    requires s.Int32Fields() && st.InBounds()
    ensures r.settings.Int32Fields()
    ensures r.error.None? ==> Accepted(r.settings)
    ensures r.error == Some(WrongArguments) ==> InvalidPreallocSettings(r.settings)
  {
    var bd := ExtractInt(st, s.bitDepth);
    var s1 := s.(bitDepth := bd.1);
    var c1 := ExpectSeparator(bd.0, ':');
    if !c1.1 then ParseOutcome(s1, Some(WrongSeparator)) else
    var prof := ExtractInt(c1.0, s.profileIdc);
    var s2 := s1.(profileIdc := prof.1);
    var c2 := ExpectSeparator(prof.0, ':');
    if !c2.1 then ParseOutcome(s2, Some(WrongSeparator)) else
    var lvl := ExtractInt(c2.0, s.level);
    Validate(s2.(level := lvl.1), lvl.0, vm, chroma)
  }

  /** The part of parsePreAllocArgs after the last extraction: round the dimensions up to
      64, decode the chroma and mode tokens, reject a failed or unfinished stream, then
      reject invalid settings. */
  function Validate(s: StreamSettings, st: StreamState, vm: string, chroma: string): (r: ParseOutcome)
    requires s.Int32Fields()
    ensures r.settings.Int32Fields()
    ensures r.error.None? ==> Accepted(r.settings)
    ensures r.error == Some(WrongArguments) ==> InvalidPreallocSettings(r.settings)
  {
    var rounded := s.(width := RoundUp(s.width, 64), height := RoundUp(s.height, 64));
    var cm := ChromaFromToken(CString(chroma));
    if cm.None? then ParseOutcome(rounded, Some(WrongChromaFormat)) else
    var s1 := rounded.(chroma := cm.value);
    var sm := ModeFromToken(CString(vm));
    if sm.None? then ParseOutcome(s1, Some(WrongVideoFormat)) else
    var s2 := s1.(sequenceMode := sm.value);
    if st.fail || !st.eof then ParseOutcome(s2, Some(WrongArgumentsFormat))
    else if InvalidPreallocSettings(s2) then ParseOutcome(s2, Some(WrongArguments))
    else
      RoundUpPositive(s.width, 64);
      RoundUpPositive(s.height, 64);
      RoundUpMultiple(s.width, 64);
      RoundUpMultiple(s.height, 64);
      ParseOutcome(s2, None)
  }

  /** The pre-allocation argument for the given fields, `WxH:mode:chroma:bd:profile:level`
      with the numbers in decimal, followed by `tail`. */
  function PreallocText(w: int, h: int, vm: string, chroma: string, bd: int, prof: int, lvl: int, tail: string): string
  {
    Dec(w) + ("x" + (Dec(h) + (":" + TokensText(vm, chroma, NumbersText(bd, prof, lvl, tail)))))
  }

  /** `mode:chroma:` followed by `rest`. */
  function TokensText(vm: string, chroma: string, rest: string): string
  {
    vm + (":" + (chroma + (":" + rest)))
  }

  /** `bd:profile:level` followed by `tail`. */
  function NumbersText(bd: int, prof: int, lvl: int, tail: string): string
  {
    Dec(bd) + (":" + (Dec(prof) + (":" + (Dec(lvl) + tail))))
  }

  /** A token that `>> char` reads back character by character: no whitespace, and no NUL
      (a command-line argument cannot hold one). */
  predicate PlainToken(t: string)
  {
    forall i :: 0 <= i < |t| ==> !IsSpace(t[i]) && t[i] != '\0'
  }

  /** A separator that is next in line is read and compared. */
  lemma ExpectSeparatorAt(st: StreamState, c: char, r: string, expected: char)
    requires st.InBounds() && st.Good() && st.Rest() == [c] + r && !IsSpace(c)
    ensures ExpectSeparator(st, expected) == (st.(pos := st.pos + 1), c == expected)
    ensures ExpectSeparator(st, expected).0.Rest() == r
  {
    ExtractCharAt(st, c, r);
  }

  /** Characters that are next in line, none of them whitespace, are read one by one. */
  lemma {:induction false} ReadTokenAt(st: StreamState, t: string)
    requires st.InBounds() && st.Good() && st.pos + |t| <= |st.input|
    requires forall i :: 0 <= i < |t| ==> st.input[st.pos + i] == t[i] && !IsSpace(t[i])
    ensures ReadToken(st, |t|) == (st.(pos := st.pos + |t|), t)
    decreases |t|
  {
    if t == [] {
      assert st.(pos := st.pos + |t|) == st;
    } else {
      var init := t[..|t| - 1];
      ReadTokenAt(st, init);
      var before := st.(pos := st.pos + |init|);
      assert before.input[before.pos] == t[|t| - 1];
      assert ExtractChar(before) == (st.(pos := st.pos + |t|), Some(t[|t| - 1]));
      assert init + [t[|t| - 1]] == t;
    }
  }

  /** A token that starts the rest of the stream is read whole, and what follows it is left. */
  lemma ReadTokenRest(st: StreamState, t: string, r: string)
    requires st.InBounds() && st.Good() && st.Rest() == t + r
    requires forall i :: 0 <= i < |t| ==> !IsSpace(t[i])
    ensures ReadToken(st, |t|) == (st.(pos := st.pos + |t|), t)
  {
    RestIndex(st.input, st.pos, t, r);
    ReadTokenAt(st, t);
  }

  /** The characters of a known prefix of the text from p, by position. */
  lemma RestIndex(s: string, p: nat, w: string, r: string)
    requires p <= |s| && s[p..] == w + r
    ensures p + |w| <= |s| && forall i :: 0 <= i < |w| ==> s[p + i] == w[i]
  {
    forall i | 0 <= i < |w|
      ensures s[p + i] == w[i]
    {
      assert s[p..][i] == s[p + i];
    }
  }

  /** The stream after `x` + rest was consumed from `text`, which ends with it. */
  lemma SuffixRest(text: string, x: string, rest: string)
    requires text == x + rest
    ensures text[|text| - |rest|..] == rest
  {
    assert text[|x|..] == rest;
  }

  /** The width, `x`, the height and `:` at the start of the text are read in decimal. */
  lemma ParseDimsAt(init: StreamSettings, text: string, w: int, h: int, rest: string,
                    s1: StreamSettings, st1: StreamState)
    requires init.Int32Fields() && IsInt32(w) && IsInt32(h) && w != 0
    requires text == Dec(w) + ("x" + (Dec(h) + (":" + rest)))
    requires s1 == init.(width := w, height := h)
    requires st1 == StreamState(text, |text| - |rest|, false, false)
    ensures ParsePreAlloc(init, text) == ParseTokens(s1, st1)
    ensures st1.Rest() == rest
  {
    var st0 := StreamState(text, 0, false, false);
    assert st0.Rest() == text;
    DimsRead(st0, w, h, rest, init.width, init.height, st1);
    assert init.(width := w).(height := h) == s1;
  }

  /** The stream steps of ParseDimsAt, from the state `st` to the state `fin`. */
  lemma DimsRead(st: StreamState, w: int, h: int, rest: string, pw: int, ph: int, fin: StreamState)
    requires st.InBounds() && st.Good() && st.Rest() == Dec(w) + ("x" + (Dec(h) + (":" + rest)))
    requires IsInt32(w) && IsInt32(h) && w != 0
    requires fin == st.(pos := |st.input| - |rest|)
    ensures
      var a := ExtractInt(st, pw);
      var b := ExpectSeparator(a.0, 'x');
      var c := ExtractInt(b.0, ph);
      var d := ExpectSeparator(c.0, ':');
      && a.1 == w && b.1 && c.1 == h && d.1 && d.0 == fin && fin.Rest() == rest
  {
    var r1 := Dec(h) + (":" + rest);
    IntThenSeparator(st, w, 'x', r1, pw);
    var st2 := st.(pos := st.pos + |Dec(w)| + 1);
    IntThenSeparator(st2, h, ':', rest, ph);
    assert |st.input| - |rest| == st2.pos + |Dec(h)| + 1 by {
      assert |st.Rest()| == |st.input| - st.pos;
    }
  }

  /** The mode and chroma tokens and their separators are read as they stand. */
  lemma ParseTokensAt(s: StreamSettings, st: StreamState, vm: string, chroma: string, rest: string)
    requires s.Int32Fields() && st.InBounds() && st.Good()
    requires st.Rest() == TokensText(vm, chroma, rest)
    requires |vm| == 5 && |chroma| == 3 && PlainToken(vm) && PlainToken(chroma)
    ensures ParseTokens(s, st) == ParseNumbers(s, st.(pos := st.pos + 10), vm + ['\0'], chroma + ['\0'])
    ensures st.pos + 10 <= |st.input| && st.input[st.pos + 10..] == rest
  {
    var r1 := chroma + (":" + rest);
    ReadTokenRest(st, vm, ":" + r1);
    RestAfter(st.input, st.pos, vm, ":" + r1);
    var st1 := st.(pos := st.pos + 5);
    ExpectSeparatorAt(st1, ':', r1, ':');
    var st2 := st1.(pos := st1.pos + 1);
    ReadTokenRest(st2, chroma, ":" + rest);
    RestAfter(st2.input, st2.pos, chroma, ":" + rest);
    var st3 := st2.(pos := st2.pos + 3);
    ExpectSeparatorAt(st3, ':', rest, ':');
  }

  /** The bit depth, profile and level and their separators are read in decimal; eofbit is
      set exactly when nothing follows the level. */
  lemma ParseNumbersAt(s: StreamSettings, st: StreamState, vm: string, chroma: string,
                       bd: int, prof: int, lvl: int, tail: string, s3: StreamSettings, fin: StreamState)
    requires s.Int32Fields() && st.InBounds() && st.Good()
    requires st.Rest() == NumbersText(bd, prof, lvl, tail)
    requires IsInt32(bd) && IsInt32(prof) && IsInt32(lvl) && NumberEnds(lvl, tail)
    requires s3 == s.(bitDepth := bd, profileIdc := prof, level := lvl)
    requires fin == StreamState(st.input, |st.input| - |tail|, false, tail == [])
    ensures ParseNumbers(s, st, vm, chroma) == Validate(s3, fin, vm, chroma)
  {
    NumbersRead(st, bd, prof, lvl, tail, s.bitDepth, s.profileIdc, s.level, fin);
    assert s.(bitDepth := bd).(profileIdc := prof).(level := lvl) == s3;
  }

  /** The stream steps of ParseNumbersAt: each extraction gives its number and each
      separator matches, ending in the state `fin`. */
  lemma NumbersRead(st: StreamState, bd: int, prof: int, lvl: int, tail: string, pb: int, pp: int, pl: int,
                    fin: StreamState)
    requires st.InBounds() && st.Good()
    requires st.Rest() == NumbersText(bd, prof, lvl, tail)
    requires IsInt32(bd) && IsInt32(prof) && IsInt32(lvl) && NumberEnds(lvl, tail)
    requires fin == StreamState(st.input, |st.input| - |tail|, false, tail == [])
    ensures
      var a := ExtractInt(st, pb);
      var b := ExpectSeparator(a.0, ':');
      var c := ExtractInt(b.0, pp);
      var d := ExpectSeparator(c.0, ':');
      var e := ExtractInt(d.0, pl);
      && a.1 == bd && b.1 && c.1 == prof && d.1 && e.1 == lvl && e.0 == fin
  {
    var r2 := Dec(prof) + (":" + (Dec(lvl) + tail));
    IntThenSeparator(st, bd, ':', r2, pb);
    var st2 := st.(pos := st.pos + |Dec(bd)| + 1);
    IntThenSeparator(st2, prof, ':', Dec(lvl) + tail, pp);
    var st4 := st2.(pos := st2.pos + |Dec(prof)| + 1);
    ExtractIntDec(st4, lvl, tail, pl);
    assert |st.input| - |tail| == st4.pos + |Dec(lvl)| by {
      assert |st.Rest()| == |st.input| - st.pos;
    }
  }

  /** A number in decimal followed by a separator character: both are read. */
  lemma IntThenSeparator(st: StreamState, n: int, c: char, r: string, prior: int)
    requires st.InBounds() && st.Good() && st.Rest() == Dec(n) + ([c] + r)
    requires IsInt32(n) && NumberEnds(n, [c] + r) && !IsSpace(c)
    ensures
      var a := ExtractInt(st, prior);
      var b := ExpectSeparator(a.0, c);
      && a.1 == n && b.1 && b.0 == st.(pos := st.pos + |Dec(n)| + 1)
      && b.0.Rest() == r
  {
    var st1 := st.(pos := st.pos + |Dec(n)|);
    ExtractIntDec(st, n, [c] + r, prior);
    assert st.(pos := st.pos + |Dec(n)|, eof := [c] + r == []) == st1;
    ExpectSeparatorAt(st1, c, r, c);
  }

  /** A number in decimal followed by a character other than the separator expected: the
      number is read and the separator check fails. */
  lemma IntThenWrongSeparator(st: StreamState, n: int, c: char, r: string, prior: int, expected: char)
    requires st.InBounds() && st.Good() && st.Rest() == Dec(n) + ([c] + r)
    requires IsInt32(n) && NumberEnds(n, [c] + r) && !IsSpace(c) && c != expected
    ensures
      var a := ExtractInt(st, prior);
      a.1 == n && !ExpectSeparator(a.0, expected).1
  {
    var st1 := st.(pos := st.pos + |Dec(n)|);
    ExtractIntDec(st, n, [c] + r, prior);
    assert st.(pos := st.pos + |Dec(n)|, eof := [c] + r == []) == st1;
    ExpectSeparatorAt(st1, c, r, expected);
  }

  /** The CString of a token without NUL, followed by the array's terminating NUL. */
  lemma CStringToken(t: string)
    requires forall i :: 0 <= i < |t| ==> t[i] != '\0'
    ensures CString(t + ['\0']) == t
  {
    var a := t + ['\0'];
    CStringUpTo(a, |t|);
    assert a[..|t|] == t;
  }

  /** The CString of an array is everything before its first NUL. */
  lemma {:induction false} CStringUpTo(a: string, n: nat)
    requires n < |a| && a[n] == '\0' && forall i :: 0 <= i < n ==> a[i] != '\0'
    ensures CString(a) == a[..n]
    decreases n
  {
    if n > 0 {
      CStringUpTo(a[1..], n - 1);
      assert a[..n] == [a[0]] + a[1..][..n - 1];
    }
  }

  /** A text laid out as `WxH:mode:chroma:bd:profile:level` followed by `tail` is read field
      by field: the parse comes down to the final checks on the numbers as written, with the
      stream at the start of `tail`, failbit clear, and eofbit set exactly when `tail` is
      empty. */
  lemma ParseLaidOut(init: StreamSettings, w: int, h: int, vm: string, chroma: string,
                     bd: int, prof: int, lvl: int, tail: string)
    requires init.Int32Fields()
    requires IsInt32(w) && IsInt32(h) && IsInt32(bd) && IsInt32(prof) && IsInt32(lvl) && w != 0
    requires |vm| == 5 && |chroma| == 3 && PlainToken(vm) && PlainToken(chroma)
    requires NumberEnds(lvl, tail)
    ensures
      var text := PreallocText(w, h, vm, chroma, bd, prof, lvl, tail);
      ParsePreAlloc(init, text)
        == Validate(init.(width := w, height := h, bitDepth := bd, profileIdc := prof, level := lvl),
                    StreamState(text, |text| - |tail|, false, tail == []), vm + ['\0'], chroma + ['\0'])
  {
    var text := PreallocText(w, h, vm, chroma, bd, prof, lvl, tail);
    DimsThenTokens(init, text, w, h, TokensText(vm, chroma, NumbersText(bd, prof, lvl, tail)),
                   vm, chroma, bd, prof, lvl, tail);
  }

  /** ParseLaidOut for a text whose dimensions are followed by `rest`. */
  lemma DimsThenTokens(init: StreamSettings, text: string, w: int, h: int, rest: string,
                       vm: string, chroma: string, bd: int, prof: int, lvl: int, tail: string)
    requires init.Int32Fields()
    requires IsInt32(w) && IsInt32(h) && IsInt32(bd) && IsInt32(prof) && IsInt32(lvl) && w != 0
    requires |vm| == 5 && |chroma| == 3 && PlainToken(vm) && PlainToken(chroma)
    requires NumberEnds(lvl, tail)
    requires text == Dec(w) + ("x" + (Dec(h) + (":" + rest)))
    requires rest == TokensText(vm, chroma, NumbersText(bd, prof, lvl, tail))
    ensures ParsePreAlloc(init, text)
      == Validate(init.(width := w, height := h, bitDepth := bd, profileIdc := prof, level := lvl),
                  StreamState(text, |text| - |tail|, false, tail == []), vm + ['\0'], chroma + ['\0'])
  {
    var s1 := init.(width := w, height := h);
    var st1 := StreamState(text, |text| - |rest|, false, false);
    ParseDimsAt(init, text, w, h, rest, s1, st1);
    TokensLaidOut(s1, st1, vm, chroma, NumbersText(bd, prof, lvl, tail), bd, prof, lvl, tail,
                  StreamState(text, |text| - |tail|, false, tail == []));
    assert s1.(bitDepth := bd, profileIdc := prof, level := lvl)
      == init.(width := w, height := h, bitDepth := bd, profileIdc := prof, level := lvl);
  }

  /** The part of ParseLaidOut after the dimensions. */
  lemma TokensLaidOut(s: StreamSettings, st: StreamState, vm: string, chroma: string, nums: string,
                      bd: int, prof: int, lvl: int, tail: string, fin: StreamState)
    requires s.Int32Fields() && st.InBounds() && st.Good()
    requires st.Rest() == TokensText(vm, chroma, nums) && nums == NumbersText(bd, prof, lvl, tail)
    requires IsInt32(bd) && IsInt32(prof) && IsInt32(lvl) && NumberEnds(lvl, tail)
    requires |vm| == 5 && |chroma| == 3 && PlainToken(vm) && PlainToken(chroma)
    requires fin == StreamState(st.input, |st.input| - |tail|, false, tail == [])
    ensures ParseTokens(s, st)
      == Validate(s.(bitDepth := bd, profileIdc := prof, level := lvl), fin, vm + ['\0'], chroma + ['\0'])
  {
    ParseTokensAt(s, st, vm, chroma, nums);
    ParseNumbersAt(s, st.(pos := st.pos + 10), vm + ['\0'], chroma + ['\0'], bd, prof, lvl, tail,
                   s.(bitDepth := bd, profileIdc := prof, level := lvl), fin);
  }

  /** The chroma token the parser accepts for each chroma mode but the sentinel. */
  function ChromaToken(c: ChromaMode): (t: string)
    requires c != ChromaMaxEnum
    ensures |t| == 3 && PlainToken(t)
    ensures ChromaFromToken(t) == Some(c)
  {
    match c
    case Chroma400 => "400"
    case Chroma420 => "420"
    case Chroma422 => "422"
    case Chroma444 => "444"
  }

  /** The mode token the parser accepts for each sequence mode but the sentinel. */
  function ModeToken(m: SequenceMode): (t: string)
    requires m != SmMaxEnum
    ensures |t| == 5 && PlainToken(t)
    ensures ModeFromToken(t) == Some(m)
  {
    match m
    case SmUnknown => "unkwn"
    case SmProgressive => "progr"
    case SmInterlaced => "inter"
  }

  /** Every accepted chroma token is the token of the mode it decodes to, and no token
      decodes to the sentinel. */
  lemma ChromaTokenInverse(t: string)
    requires ChromaFromToken(t).Some?
    ensures ChromaFromToken(t).value != ChromaMaxEnum && ChromaToken(ChromaFromToken(t).value) == t
  {
  }

  /** Every accepted mode token is the token of the mode it decodes to, and no token
      decodes to the sentinel. */
  lemma ModeTokenInverse(t: string)
    requires ModeFromToken(t).Some?
    ensures ModeFromToken(t).value != SmMaxEnum && ModeToken(ModeFromToken(t).value) == t
  {
  }

  /** The final checks on the tokens as read: the dimensions are rounded up whatever
      follows, the chroma token is checked first, then the mode token, then the stream. */
  lemma ValidateTokens(s: StreamSettings, fin: StreamState, vm: string, chroma: string)
    requires s.Int32Fields() && PlainToken(vm) && PlainToken(chroma)
    ensures
      var r := Validate(s, fin, vm + ['\0'], chroma + ['\0']);
      var cm := ChromaFromToken(chroma);
      var sm := ModeFromToken(vm);
      && r.settings.width == RoundUp(s.width, 64) && r.settings.height == RoundUp(s.height, 64)
      && r.settings.bitDepth == s.bitDepth && r.settings.profileIdc == s.profileIdc
      && r.settings.level == s.level
      && (cm.None? ==> r.error == Some(WrongChromaFormat) && r.settings.chroma == s.chroma)
      && (cm.Some? ==> r.settings.chroma == cm.value)
      && (cm.Some? && sm.None? ==> r.error == Some(WrongVideoFormat))
      && (cm.Some? && sm.Some? ==> r.settings.sequenceMode == sm.value)
      && (cm.Some? && sm.Some? && (fin.fail || !fin.eof) ==> r.error == Some(WrongArgumentsFormat))
  {
    CStringToken(vm);
    CStringToken(chroma);
  }

  /** The settings are accepted exactly when both tokens are known, the stream was read to
      its end without failure, and profile, level and both dimensions are positive with
      room to round up. */
  lemma ValidateAccepts(s: StreamSettings, fin: StreamState, vm: string, chroma: string)
    requires s.Int32Fields() && PlainToken(vm) && PlainToken(chroma)
    ensures
      Validate(s, fin, vm + ['\0'], chroma + ['\0']).error.None? <==>
        && ChromaFromToken(chroma).Some? && ModeFromToken(vm).Some? && !fin.fail && fin.eof
        && 0 < s.profileIdc && 0 < s.level
        && 0 < s.width && s.width + 63 <= INT_MAX && 0 < s.height && s.height + 63 <= INT_MAX
  {
    CStringToken(vm);
    CStringToken(chroma);
    RoundUpPositive(s.width, 64);
    RoundUpPositive(s.height, 64);
    if ChromaFromToken(chroma).Some? {
      ChromaTokenInverse(chroma);
    }
    if ModeFromToken(vm).Some? {
      ModeTokenInverse(vm);
    }
  }

  /** A text in the expected layout: the numbers as written, the dimensions rounded up to
      64, whatever the tokens and whatever follows. */
  lemma PreallocNumbers(init: StreamSettings, w: int, h: int, vm: string, chroma: string,
                        bd: int, prof: int, lvl: int, tail: string)
    requires init.Int32Fields()
    requires IsInt32(w) && IsInt32(h) && IsInt32(bd) && IsInt32(prof) && IsInt32(lvl) && w != 0
    requires |vm| == 5 && |chroma| == 3 && PlainToken(vm) && PlainToken(chroma)
    requires NumberEnds(lvl, tail)
    ensures
      var r := ParsePreAlloc(init, PreallocText(w, h, vm, chroma, bd, prof, lvl, tail));
      && r.settings.width == RoundUp(w, 64) && r.settings.height == RoundUp(h, 64)
      && r.settings.bitDepth == bd && r.settings.profileIdc == prof && r.settings.level == lvl
  {
    var text := PreallocText(w, h, vm, chroma, bd, prof, lvl, tail);
    var s := init.(width := w, height := h, bitDepth := bd, profileIdc := prof, level := lvl);
    var fin := StreamState(text, |text| - |tail|, false, tail == []);
    ParseLaidOut(init, w, h, vm, chroma, bd, prof, lvl, tail);
    ValidateTokens(s, fin, vm, chroma);
  }

  /** A text in the expected layout: the tokens decoded, and the error thrown by the first
      check on them that fails; a text with anything after the level is refused. */
  lemma PreallocFields(init: StreamSettings, w: int, h: int, vm: string, chroma: string,
                       bd: int, prof: int, lvl: int, tail: string)
    requires init.Int32Fields()
    requires IsInt32(w) && IsInt32(h) && IsInt32(bd) && IsInt32(prof) && IsInt32(lvl) && w != 0
    requires |vm| == 5 && |chroma| == 3 && PlainToken(vm) && PlainToken(chroma)
    requires NumberEnds(lvl, tail)
    ensures
      var r := ParsePreAlloc(init, PreallocText(w, h, vm, chroma, bd, prof, lvl, tail));
      var cm := ChromaFromToken(chroma);
      var sm := ModeFromToken(vm);
      && (cm.None? ==> r.error == Some(WrongChromaFormat))
      && (cm.Some? ==> r.settings.chroma == cm.value)
      && (cm.Some? && sm.None? ==> r.error == Some(WrongVideoFormat))
      && (cm.Some? && sm.Some? ==> r.settings.sequenceMode == sm.value)
      && (cm.Some? && sm.Some? && tail != [] ==> r.error == Some(WrongArgumentsFormat))
  {
    var text := PreallocText(w, h, vm, chroma, bd, prof, lvl, tail);
    var s := init.(width := w, height := h, bitDepth := bd, profileIdc := prof, level := lvl);
    var fin := StreamState(text, |text| - |tail|, false, tail == []);
    ParseLaidOut(init, w, h, vm, chroma, bd, prof, lvl, tail);
    ValidateTokens(s, fin, vm, chroma);
  }

  /** A text in the expected layout is accepted exactly when both tokens are known, nothing
      follows the level, and profile, level and both dimensions are positive with room to
      round up. */
  lemma PreallocAccepts(init: StreamSettings, w: int, h: int, vm: string, chroma: string,
                        bd: int, prof: int, lvl: int, tail: string)
    requires init.Int32Fields()
    requires IsInt32(w) && IsInt32(h) && IsInt32(bd) && IsInt32(prof) && IsInt32(lvl) && w != 0
    requires |vm| == 5 && |chroma| == 3 && PlainToken(vm) && PlainToken(chroma)
    requires NumberEnds(lvl, tail)
    ensures
      ParsePreAlloc(init, PreallocText(w, h, vm, chroma, bd, prof, lvl, tail)).error.None? <==>
        && ChromaFromToken(chroma).Some? && ModeFromToken(vm).Some? && tail == []
        && 0 < prof && 0 < lvl && 0 < w && w + 63 <= INT_MAX && 0 < h && h + 63 <= INT_MAX
  {
    var text := PreallocText(w, h, vm, chroma, bd, prof, lvl, tail);
    var s := init.(width := w, height := h, bitDepth := bd, profileIdc := prof, level := lvl);
    var fin := StreamState(text, |text| - |tail|, false, tail == []);
    ParseLaidOut(init, w, h, vm, chroma, bd, prof, lvl, tail);
    ValidateAccepts(s, fin, vm, chroma);
  }

  /** A separator other than `x` after the width is refused, with the width already
      stored. */
  lemma WidthSeparatorRefused(init: StreamSettings, w: int, c: char, r: string)
    requires init.Int32Fields() && IsInt32(w) && NumberEnds(w, [c] + r)
    requires !IsSpace(c) && c != 'x'
    ensures ParsePreAlloc(init, Dec(w) + ([c] + r)) == ParseOutcome(init.(width := w), Some(WrongSeparator))
  {
    var text := Dec(w) + ([c] + r);
    var st0 := StreamState(text, 0, false, false);
    assert st0.Rest() == text;
    ExtractIntDec(st0, w, [c] + r, init.width);
    ExpectSeparatorAt(st0.(pos := |Dec(w)|), c, r, 'x');
  }

  /** A separator other than `:` after the five characters of the mode is refused, and
      the settings keep the dimensions already stored. */
  lemma ModeSeparatorRefused(s: StreamSettings, st: StreamState, vm: string, c: char, r: string)
    requires s.Int32Fields() && st.InBounds() && st.Good() && st.Rest() == vm + ([c] + r)
    requires |vm| == 5 && PlainToken(vm) && !IsSpace(c) && c != ':'
    ensures ParseTokens(s, st) == ParseOutcome(s, Some(WrongSeparator))
  {
    ReadTokenRest(st, vm, [c] + r);
    RestAfter(st.input, st.pos, vm, [c] + r);
    ExpectSeparatorAt(st.(pos := st.pos + 5), c, r, ':');
  }

  /** A text that does not start with a number (after any whitespace) fails the width
      extraction, which stores 0; the separator check that follows reads nothing and
      throws. */
  lemma MissingWidthRefused(init: StreamSettings, c: char, r: string)
    requires init.Int32Fields()
    requires !IsSpace(c) && !('0' <= c <= '9') && c != '+' && c != '-'
    ensures ParsePreAlloc(init, [c] + r) == ParseOutcome(init.(width := 0), Some(WrongSeparator))
  {
    var st0 := StreamState([c] + r, 0, false, false);
    assert st0.Rest() == [c] + r;
    ExtractIntNoNumber(st0, c, r, init.width);
    ExtractCharFailed(st0.(fail := true));
  }

  /** A separator other than `:` after the height is refused, with both dimensions
      already stored. */
  lemma HeightSeparatorRefused(init: StreamSettings, w: int, h: int, c: char, r: string)
    requires init.Int32Fields() && IsInt32(w) && IsInt32(h) && w != 0 && NumberEnds(h, [c] + r)
    requires !IsSpace(c) && c != ':'
    ensures ParsePreAlloc(init, Dec(w) + ("x" + (Dec(h) + ([c] + r))))
      == ParseOutcome(init.(width := w, height := h), Some(WrongSeparator))
  {
    var text := Dec(w) + ("x" + (Dec(h) + ([c] + r)));
    var st0 := StreamState(text, 0, false, false);
    assert st0.Rest() == text;
    IntThenSeparator(st0, w, 'x', Dec(h) + ([c] + r), init.width);
    var x := ExpectSeparator(ExtractInt(st0, init.width).0, 'x');
    assert x.1 && x.0 == st0.(pos := |Dec(w)| + 1);
    IntThenWrongSeparator(x.0, h, c, r, init.height, ':');
  }

  /** A height that is not a number fails its extraction, which stores 0; the separator
      check that follows reads nothing and throws. */
  lemma MissingHeightRefused(init: StreamSettings, w: int, c: char, r: string)
    requires init.Int32Fields() && IsInt32(w) && w != 0
    requires !IsSpace(c) && !('0' <= c <= '9') && c != '+' && c != '-'
    ensures ParsePreAlloc(init, Dec(w) + ("x" + ([c] + r)))
      == ParseOutcome(init.(width := w, height := 0), Some(WrongSeparator))
  {
    var text := Dec(w) + ("x" + ([c] + r));
    var st0 := StreamState(text, 0, false, false);
    assert st0.Rest() == text;
    IntThenSeparator(st0, w, 'x', [c] + r, init.width);
    var st2 := st0.(pos := |Dec(w)| + 1);
    var x := ExpectSeparator(ExtractInt(st0, init.width).0, 'x');
    assert x.1 && x.0 == st2;
    ExtractIntNoNumber(st2, c, r, init.height);
    ExtractCharFailed(st2.(fail := true));
  }

  /** A separator other than `:` after the three characters of the chroma is refused. */
  lemma ChromaSeparatorRefused(s: StreamSettings, st: StreamState, vm: string, chroma: string,
                               c: char, r: string)
    requires s.Int32Fields() && st.InBounds() && st.Good()
    requires st.Rest() == vm + (":" + (chroma + ([c] + r)))
    requires |vm| == 5 && |chroma| == 3 && PlainToken(vm) && PlainToken(chroma)
    requires !IsSpace(c) && c != ':'
    ensures ParseTokens(s, st) == ParseOutcome(s, Some(WrongSeparator))
  {
    var r1 := chroma + ([c] + r);
    ReadTokenRest(st, vm, ":" + r1);
    RestAfter(st.input, st.pos, vm, ":" + r1);
    var st1 := st.(pos := st.pos + 5);
    ExpectSeparatorAt(st1, ':', r1, ':');
    var st2 := st1.(pos := st1.pos + 1);
    ReadTokenRest(st2, chroma, [c] + r);
    RestAfter(st2.input, st2.pos, chroma, [c] + r);
    ExpectSeparatorAt(st2.(pos := st2.pos + 3), c, r, ':');
  }

  /** A separator other than `:` after the bit depth is refused, with the bit depth
      already stored. */
  lemma BitDepthSeparatorRefused(s: StreamSettings, st: StreamState, vm: string, chroma: string,
                                 bd: int, c: char, r: string)
    requires s.Int32Fields() && st.InBounds() && st.Good() && st.Rest() == Dec(bd) + ([c] + r)
    requires IsInt32(bd) && NumberEnds(bd, [c] + r) && !IsSpace(c) && c != ':'
    ensures ParseNumbers(s, st, vm, chroma) == ParseOutcome(s.(bitDepth := bd), Some(WrongSeparator))
  {
    IntThenWrongSeparator(st, bd, c, r, s.bitDepth, ':');
  }

  /** A separator other than `:` after the profile is refused, with the bit depth and the
      profile already stored. */
  lemma ProfileSeparatorRefused(s: StreamSettings, st: StreamState, vm: string, chroma: string,
                                bd: int, prof: int, c: char, r: string)
    requires s.Int32Fields() && st.InBounds() && st.Good()
    requires st.Rest() == Dec(bd) + (":" + (Dec(prof) + ([c] + r)))
    requires IsInt32(bd) && IsInt32(prof) && NumberEnds(prof, [c] + r) && !IsSpace(c) && c != ':'
    ensures ParseNumbers(s, st, vm, chroma)
      == ParseOutcome(s.(bitDepth := bd, profileIdc := prof), Some(WrongSeparator))
  {
    IntThenSeparator(st, bd, ':', Dec(prof) + ([c] + r), s.bitDepth);
    IntThenWrongSeparator(st.(pos := st.pos + |Dec(bd)| + 1), prof, c, r, s.profileIdc, ':');
  }

  /** A level that is not a number fails its extraction, which stores 0 and leaves the
      stream failed: with known tokens the parse throws the format error, otherwise the
      token error that comes first. */
  lemma MissingLevelRefused(s: StreamSettings, st: StreamState, vm: string, chroma: string,
                            bd: int, prof: int, c: char, r: string)
    requires s.Int32Fields() && st.InBounds() && st.Good()
    requires st.Rest() == Dec(bd) + (":" + (Dec(prof) + (":" + ([c] + r))))
    requires IsInt32(bd) && IsInt32(prof) && PlainToken(vm) && PlainToken(chroma)
    requires !IsSpace(c) && !('0' <= c <= '9') && c != '+' && c != '-'
    ensures var o := ParseNumbers(s, st, vm + ['\0'], chroma + ['\0']);
      && o.settings.level == 0
      && o.error == Some(if ChromaFromToken(chroma).None? then WrongChromaFormat
                         else if ModeFromToken(vm).None? then WrongVideoFormat
                         else WrongArgumentsFormat)
  {
    IntThenSeparator(st, bd, ':', Dec(prof) + (":" + ([c] + r)), s.bitDepth);
    var st2 := st.(pos := st.pos + |Dec(bd)| + 1);
    IntThenSeparator(st2, prof, ':', [c] + r, s.profileIdc);
    var st4 := st2.(pos := st2.pos + |Dec(prof)| + 1);
    ExtractIntNoNumber(st4, c, r, s.level);
    ValidateTokens(s.(bitDepth := bd, profileIdc := prof, level := 0), st4.(fail := true), vm, chroma);
  }

  /** A level written as `0x` or `0X` with no hexadecimal digit after it (`0x`, `0xx28`)
      stores 0 and leaves the stream failed: with known tokens the parse throws the format
      error, otherwise the token error that comes first. */
  lemma HexLevelWithoutDigitRefused(s: StreamSettings, st: StreamState, vm: string, chroma: string,
                                    bd: int, prof: int, x: char, r: string)
    requires s.Int32Fields() && st.InBounds() && st.Good()
    requires st.Rest() == Dec(bd) + (":" + (Dec(prof) + (":" + (['0', x] + r))))
    requires IsInt32(bd) && IsInt32(prof) && PlainToken(vm) && PlainToken(chroma)
    requires IsX(x) && (r == [] || !Hex.IsHexDigit(r[0]))
    ensures var o := ParseNumbers(s, st, vm + ['\0'], chroma + ['\0']);
      && o.settings.level == 0
      && o.error == Some(if ChromaFromToken(chroma).None? then WrongChromaFormat
                         else if ModeFromToken(vm).None? then WrongVideoFormat
                         else WrongArgumentsFormat)
  {
    IntThenSeparator(st, bd, ':', Dec(prof) + (":" + (['0', x] + r)), s.bitDepth);
    var st2 := st.(pos := st.pos + |Dec(bd)| + 1);
    IntThenSeparator(st2, prof, ':', ['0', x] + r, s.profileIdc);
    var st4 := st2.(pos := st2.pos + |Dec(prof)| + 1);
    ExtractIntHexNoDigit(st4, x, r, s.level);
    ValidateTokens(s.(bitDepth := bd, profileIdc := prof, level := 0),
                   st4.(pos := st4.pos + 2, fail := true, eof := r == []), vm, chroma);
  }

  /** A text in the expected layout with known tokens, positive values and nothing after
      the level is accepted, with the dimensions rounded up to 64 and every other field as
      written. */
  lemma PreallocAccepted(init: StreamSettings, w: int, h: int, vm: string, chroma: string,
                         bd: int, prof: int, lvl: int)
    requires init.Int32Fields() && IsInt32(bd)
    requires 0 < w && w + 63 <= INT_MAX && 0 < h && h + 63 <= INT_MAX && 0 < prof <= INT_MAX && 0 < lvl <= INT_MAX
    requires |vm| == 5 && |chroma| == 3 && PlainToken(vm) && PlainToken(chroma)
    requires ChromaFromToken(chroma).Some? && ModeFromToken(vm).Some?
    ensures ParsePreAlloc(init, PreallocText(w, h, vm, chroma, bd, prof, lvl, ""))
      == ParseOutcome(StreamSettings(RoundUp(w, 64), RoundUp(h, 64), bd, prof, lvl,
                                     ChromaFromToken(chroma).value, ModeFromToken(vm).value), None)
  {
    PreallocNumbers(init, w, h, vm, chroma, bd, prof, lvl, "");
    PreallocFields(init, w, h, vm, chroma, bd, prof, lvl, "");
    PreallocAccepts(init, w, h, vm, chroma, bd, prof, lvl, "");
  }

  /** Parsing `1920x1080:progr:420:8:1:40` (PreallocText writes the numbers in decimal)
      keeps the width 1920, rounds the height 1080 up to 1088 and accepts the settings. */
  lemma PreallocExample(init: StreamSettings)
    requires init.Int32Fields()
    ensures ParsePreAlloc(init, PreallocText(1920, 1080, "progr", "420", 8, 1, 40, ""))
      == ParseOutcome(StreamSettings(1920, 1088, 8, 1, 40, Chroma420, SmProgressive), None)
  {
    var vm, chroma := ModeToken(SmProgressive), ChromaToken(Chroma420);
    RoundUpExact(1920, 64);
    assert RoundUp(1080, 64) == 1088;
    PreallocAccepted(init, 1920, 1080, vm, chroma, 8, 1, 40);
  }

  /** The pre-allocation argument that describes the settings s. */
  function FormatPrealloc(s: StreamSettings): (text: string)
    requires s.chroma != ChromaMaxEnum && s.sequenceMode != SmMaxEnum
    ensures |text| >= 19
  {
    PreallocText(s.width, s.height, ModeToken(s.sequenceMode), ChromaToken(s.chroma),
                 s.bitDepth, s.profileIdc, s.level, "")
  }

  /** Round trip: settings the parser accepts, written out as a pre-allocation argument,
      are parsed back unchanged and accepted, whatever the record held before. */
  lemma PreallocRoundTrip(init: StreamSettings, s: StreamSettings)
    requires init.Int32Fields() && s.Int32Fields() && Accepted(s)
    ensures ParsePreAlloc(init, FormatPrealloc(s)) == ParseOutcome(s, None)
  {
    var vm, chroma := ModeToken(s.sequenceMode), ChromaToken(s.chroma);
    Multiple64Room(s.width);
    Multiple64Room(s.height);
    RoundUpExact(s.width, 64);
    RoundUpExact(s.height, 64);
    PreallocAccepted(init, s.width, s.height, vm, chroma, s.bitDepth, s.profileIdc, s.level);
  }

  /** The AL_TStreamSettings record the parser writes through its pointer argument. */
  class SettingsRecord {
    var width: int
    var height: int
    var bitDepth: int
    var profileIdc: int
    var level: int
    var chroma: ChromaMode
    var sequenceMode: SequenceMode

    constructor (s: StreamSettings)
      ensures Value() == s
    {
      width, height, bitDepth := s.width, s.height, s.bitDepth;
      profileIdc, level := s.profileIdc, s.level;
      chroma, sequenceMode := s.chroma, s.sequenceMode;
    }

    function Value(): StreamSettings
      reads this
    {
      StreamSettings(width, height, bitDepth, profileIdc, level, chroma, sequenceMode)
    }
  }

  /** getExpectedSeparator, with the runtime_error as a false result. */
  method GetExpectedSeparator(ss: StringStream, expected: char) returns (ok: bool)
    requires ss.state.InBounds()
    modifies ss
    ensures (ss.state, ok) == ExpectSeparator(old(ss.state), expected)
  {
    var sep := ss.ReadChar();
    ok := sep == Some(expected);
  }

  /** `ss >> a[k]` into a char array whose first k elements were read from the stream
      state `st0` on and whose other elements are still NUL: the element is written only
      when a character was extracted, so that the first k + 1 elements are ReadToken's. */
  method ExtractNext(ss: StringStream, a: array<char>, k: nat, ghost st0: StreamState)
    requires st0.InBounds() && k < a.Length
    requires forall j :: k <= j < a.Length ==> a[j] == '\0'
    requires (ss.state, a[..k]) == ReadToken(st0, k)
    modifies ss, a
    ensures (ss.state, a[..k + 1]) == ReadToken(st0, k + 1)
    ensures forall j :: k < j < a.Length ==> a[j] == '\0'
  {
    var c := ss.ReadChar();
    if c.Some? {
      a[k] := c.value;
    }
    assert a[..k + 1] == old(a[..k]) + [a[k]];
  }

  /** parsePreAllocArgs: reads the text into `settings` field by field, and returns the
      error it throws, if any. */
  method ParsePreAllocArgs(settings: SettingsRecord, toParse: string) returns (error: Option<PreallocError>)
    requires settings.Value().Int32Fields()
    modifies settings
    ensures ParseOutcome(settings.Value(), error) == ParsePreAlloc(old(settings.Value()), toParse)
  {
    var ss := new StringStream(toParse);
    settings.width := ss.ReadInt(settings.width);
    var ok := GetExpectedSeparator(ss, 'x');
    if !ok {
      return Some(WrongSeparator);
    }
    settings.height := ss.ReadInt(settings.height);
    ok := GetExpectedSeparator(ss, ':');
    if !ok {
      return Some(WrongSeparator);
    }
    error := ReadTokens(settings, ss);
  }

  /** A char array of n characters and the NUL after them. */
  lemma Terminated(a: string, n: nat)
    requires |a| == n + 1 && a[n] == '\0'
    ensures a == a[..n] + ['\0']
  {
  }

  /** `char vm[6] {}` and the five `ss >> vm[i]`. */
  method ReadModeChars(ss: StringStream) returns (vm: array<char>)
    requires ss.state.InBounds()
    modifies ss
    ensures fresh(vm) && vm.Length == 6
    ensures (ss.state, vm[..5]) == ReadToken(old(ss.state), 5) && vm[5] == '\0'
  {
    vm := new char[6](_ => '\0');
    assert vm[..0] == [];
    ExtractNext(ss, vm, 0, old(ss.state));
    ExtractNext(ss, vm, 1, old(ss.state));
    ExtractNext(ss, vm, 2, old(ss.state));
    ExtractNext(ss, vm, 3, old(ss.state));
    ExtractNext(ss, vm, 4, old(ss.state));
  }

  /** `char chroma[4] {}` and the three `ss >> chroma[i]`. */
  method ReadChromaChars(ss: StringStream) returns (chroma: array<char>)
    requires ss.state.InBounds()
    modifies ss
    ensures fresh(chroma) && chroma.Length == 4
    ensures (ss.state, chroma[..3]) == ReadToken(old(ss.state), 3) && chroma[3] == '\0'
  {
    chroma := new char[4](_ => '\0');
    assert chroma[..0] == [];
    ExtractNext(ss, chroma, 0, old(ss.state));
    ExtractNext(ss, chroma, 1, old(ss.state));
    ExtractNext(ss, chroma, 2, old(ss.state));
  }

  /** The mode and chroma tokens of parsePreAllocArgs, each read into a zero-initialised
      char array, then the numbers after them. */
  method ReadTokens(settings: SettingsRecord, ss: StringStream) returns (error: Option<PreallocError>)
    requires settings.Value().Int32Fields() && ss.state.InBounds()
    modifies settings, ss
    ensures ParseOutcome(settings.Value(), error) == ParseTokens(old(settings.Value()), old(ss.state))
  {
    var vm := ReadModeChars(ss);
    Terminated(vm[..], 5);
    var ok := GetExpectedSeparator(ss, ':');
    if !ok {
      return Some(WrongSeparator);
    }
    var chroma := ReadChromaChars(ss);
    Terminated(chroma[..], 3);
    ok := GetExpectedSeparator(ss, ':');
    if !ok {
      return Some(WrongSeparator);
    }
    error := ReadNumbers(settings, ss, vm[..], chroma[..]);
  }

  /** The bit depth, profile and level of parsePreAllocArgs, with the separators between
      them, then the checks; `vm` and `chroma` hold the char arrays read before. */
  method ReadNumbers(settings: SettingsRecord, ss: StringStream, vm: string, chroma: string)
    returns (error: Option<PreallocError>)
    requires settings.Value().Int32Fields() && ss.state.InBounds()
    modifies settings, ss
    ensures ParseOutcome(settings.Value(), error) == ParseNumbers(old(settings.Value()), old(ss.state), vm, chroma)
  {
    settings.bitDepth := ss.ReadInt(settings.bitDepth);
    var ok := GetExpectedSeparator(ss, ':');
    if !ok {
      return Some(WrongSeparator);
    }
    settings.profileIdc := ss.ReadInt(settings.profileIdc);
    ok := GetExpectedSeparator(ss, ':');
    if !ok {
      return Some(WrongSeparator);
    }
    settings.level := ss.ReadInt(settings.level);
    error := CheckSettings(settings, ss, vm, chroma);
  }

  /** The end of parsePreAllocArgs: rounding, token decoding and the final checks. */
  method CheckSettings(settings: SettingsRecord, ss: StringStream, vm: string, chroma: string)
    returns (error: Option<PreallocError>)
    requires settings.Value().Int32Fields() && ss.state.InBounds()
    modifies settings, ss
    ensures ParseOutcome(settings.Value(), error) == Validate(old(settings.Value()), old(ss.state), vm, chroma)
  {
    settings.width := RoundUp(settings.width, 64);
    settings.height := RoundUp(settings.height, 64);
    var cm := ChromaFromToken(CString(chroma));
    if cm.None? {
      return Some(WrongChromaFormat);
    }
    settings.chroma := cm.value;
    var sm := ModeFromToken(CString(vm));
    if sm.None? {
      return Some(WrongVideoFormat);
    }
    settings.sequenceMode := sm.value;
    if ss.state.fail {
      return Some(WrongArgumentsFormat);
    }
    var pos := ss.TellG();
    if pos != -1 {
      return Some(WrongArgumentsFormat);
    }
    if InvalidPreallocSettings(settings.Value()) {
      return Some(WrongArguments);
    }
    return None;
  }
}
