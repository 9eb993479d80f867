/** Shared value types of the decoder harness model: optional values, results with an
    error, and the 32-bit integer arithmetic of the C++ source. */
module Common {

  datatype Option<+T> = None | Some(value: T)

  datatype Result<+T, +E> = Ok(value: T) | Err(error: E)

  /** AL_EChromaMode: AL_CHROMA_MONO and AL_CHROMA_4_0_0 are the same enumerator (code 0);
      ChromaMaxEnum is the sentinel AL_CHROMA_MAX_ENUM that marks "not set". */
  datatype ChromaMode = Chroma400 | Chroma420 | Chroma422 | Chroma444 | ChromaMaxEnum

  /** The numeric value of each enumerator, as packed by GetConvFormat. */
  function ChromaCode(c: ChromaMode): (n: nat)
    ensures n <= 4
    ensures c != ChromaMaxEnum <==> n < 4
  {
    match c
    case Chroma400 => 0
    case Chroma420 => 1
    case Chroma422 => 2
    case Chroma444 => 3
    case ChromaMaxEnum => 4
  }

  /** AL_ESequenceMode; SmMaxEnum is the sentinel AL_SM_MAX_ENUM that marks "not set". */
  datatype SequenceMode = SmUnknown | SmProgressive | SmInterlaced | SmMaxEnum

  /** The part of AL_TStreamSettings the harness reads and writes: the picture dimensions,
      bit depth, profile and level (C `int`s), the chroma mode and the sequence mode. */
  datatype StreamSettings = StreamSettings(
    width: int, height: int, bitDepth: int, profileIdc: int, level: int,
    chroma: ChromaMode, sequenceMode: SequenceMode)
  {
    predicate Int32Fields()
    {
      IsInt32(width) && IsInt32(height) && IsInt32(bitDepth) && IsInt32(profileIdc) && IsInt32(level)
    }
  }

  const INT_MAX: int := 0x7FFF_FFFF
  const INT_MIN: int := -0x8000_0000
  const UINT_MAX: int := 0xFFFF_FFFF

  predicate IsInt32(x: int) { INT_MIN <= x <= INT_MAX }

  /** Two's-complement wrap-around of a mathematical integer into a 32-bit `int`. */
  function Wrap32(x: int): (r: int)
    ensures IsInt32(r)
    ensures IsInt32(x) ==> r == x
    ensures (r - x) % 0x1_0000_0000 == 0
  {
    var m := (x - INT_MIN) % 0x1_0000_0000;
    m + INT_MIN
  }

  /** C and C++ integer division, which truncates toward zero (Dafny's `/` is Euclidean). */
  function CDiv(a: int, b: int): (q: int)
    requires b > 0
    ensures a >= 0 ==> q == a / b
    ensures a < 0 ==> q == -((-a) / b)
  {
    if a >= 0 then a / b else -((-a) / b)
  }

  /** The truncated quotient times the divisor lies between 0 and the dividend. */
  lemma CDivBounds(a: int, b: int)
    requires b >= 1
    ensures a >= 0 ==> 0 <= CDiv(a, b) * b <= a
    ensures a < 0 ==> a <= CDiv(a, b) * b <= 0
  {
    if a >= 0 {
      DivBounds(a, b);
    } else {
      var d := (-a) / b;
      DivBounds(-a, b);
      assert CDiv(a, b) == -d;
      assert (-d) * b == -(d * b) by {
        assert (-d) * b + d * b == (-d + d) * b;
      }
    }
  }

  lemma DivBounds(m: int, b: int)
    requires m >= 0 && b >= 1
    ensures 0 <= (m / b) * b <= m
  {
    var d := m / b;
    assert d * b + m % b == m;
    assert d >= 0;
    MulMono(0, d, b);
  }

  /** C `max` of two values. */
  function Max(a: int, b: int): (r: int)
    ensures r >= a && r >= b && (r == a || r == b)
  {
    if a < b then b else a
  }

  /** The quotient is the q with q * s <= a < q * s + s. */
  lemma DivUnique(a: int, s: int, q: int)
    requires s >= 1 && q * s <= a < q * s + s
    ensures a / s == q
  {
    var d := a / s;
    var r := a % s;
    assert a == d * s + r && 0 <= r < s;
    if d > q {
      MulMono(q + 1, d, s);
    } else if d < q {
      MulMono(d + 1, q, s);
    }
  }

  /** A multiple of s below the next multiple after k * s has a factor at most k. */
  lemma MulCancel(q: int, k: int, s: int)
    requires s >= 1 && q * s < k * s + s
    ensures q <= k
  {
    if q > k {
      assert (k + 1) * s == k * s + s;
      MulMono(k + 1, q, s);
    }
  }

  lemma MulMono(x: int, y: int, s: int)
    requires x <= y && s >= 0
    ensures x * s <= y * s
  {
    assert y * s - x * s == (y - x) * s;
  }
}
