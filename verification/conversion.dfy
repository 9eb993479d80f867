/** Conversion dispatch of the decoder harness (exe_decoder/main.cpp, GetConvFormat and the
    Get*ConversionFunction tables): a closed lookup from the decoded picture's chroma mode,
    input bit depth, requested output bit depth and tiling to the name of a pixel conversion
    kernel. The kernels themselves are external; only their names are modelled. */
module Conversion {
  import opened Common

  /** The pixel layouts named in the conversion routines, by their FourCC. */
  datatype FourCC =
      // decoder layouts, untiled
    | NV12 | NV16 | I444 | Y800 | XV15 | XV20 | I4AL | XV10 | P012 | P212 | I4CL | Y012
      // decoder layouts, tiled
    | T608 | T628 | T648 | T60A | T62A | T64A | T60C | T62C | T64C
      // planar output layouts not listed above
    | I420 | I0AL | I0CL | I422 | I2AL | I2CL | Y010

  /** A conversion routine. The kernel named `NV12_To_I420` in the source is
      `Convert(NV12, I420)` here, and so on for every `<src>_To_<dst>` kernel. */
  datatype Kernel = CopyPixMapBuffer | Convert(src: FourCC, dst: FourCC)

  /** The key the tables are indexed by: GetConvFormat(ChromaMode, iBdIn, iBdOut). */
  datatype ConvFormat = ConvFormat(chroma: ChromaMode, bdIn: int, bdOut: int)

  /** What a FourCC says about a picture: tiled or raster, chroma mode, bit depth. */
  datatype Layout = Layout(tiled: bool, chroma: ChromaMode, bitDepth: int)

  /** The layout each FourCC names (NV12: 4:2:0 8-bit, XV15: 4:2:0 10-bit, P012: 4:2:0 12-bit,
      T60A: tiled 4:2:0 10-bit, I0AL: planar 4:2:0 10-bit, Y010: monochrome 10-bit, ...). */
  function FourCCLayout(f: FourCC): Layout
  {
    match f
    case NV12 | I420 => Layout(false, Chroma420, 8)
    case XV15 | I0AL => Layout(false, Chroma420, 10)
    case P012 | I0CL => Layout(false, Chroma420, 12)
    case NV16 | I422 => Layout(false, Chroma422, 8)
    case XV20 | I2AL => Layout(false, Chroma422, 10)
    case P212 | I2CL => Layout(false, Chroma422, 12)
    case I444 => Layout(false, Chroma444, 8)
    case I4AL => Layout(false, Chroma444, 10)
    case I4CL => Layout(false, Chroma444, 12)
    case Y800 => Layout(false, Chroma400, 8)
    case XV10 | Y010 => Layout(false, Chroma400, 10)
    case Y012 => Layout(false, Chroma400, 12)
    case T608 => Layout(true, Chroma420, 8)
    case T60A => Layout(true, Chroma420, 10)
    case T60C => Layout(true, Chroma420, 12)
    case T628 => Layout(true, Chroma422, 8)
    case T62A => Layout(true, Chroma422, 10)
    case T62C => Layout(true, Chroma422, 12)
    case T648 => Layout(true, Chroma444, 8)
    case T64A => Layout(true, Chroma444, 10)
    case T64C => Layout(true, Chroma444, 12)
  }

  /** The planar layouts a conversion may write (I420/I0AL/I0CL, I422/I2AL/I2CL,
      I444/I4AL/I4CL, Y800/Y010/Y012). */
  predicate IsPlanarOutput(f: FourCC)
  {
    match f
    case I420 | I0AL | I0CL | I422 | I2AL | I2CL | I444 | I4AL | I4CL | Y800 | Y010 | Y012 => true
    case _ => false
  }

  /** The chroma layout in which the decoder stores a picture of chroma mode `c`: tiled
      monochrome pictures use the 4:2:0 tile layout (T60x) without its chroma part. */
  function StoredChroma(c: ChromaMode, tiled: bool): ChromaMode
  {
    if tiled && c == Chroma400 then Chroma420 else c
  }

  /** A kernel is right for a conversion when it reads the decoder's layout for that input
      and writes the requested planar format; the copy is right only when nothing changes. */
  predicate KernelFits(k: Kernel, f: ConvFormat, tiled: bool)
  {
    match k
    case CopyPixMapBuffer => !tiled && f.bdIn == f.bdOut
    case Convert(src, dst) =>
      && FourCCLayout(src) == Layout(tiled, StoredChroma(f.chroma, tiled), f.bdIn)
      && IsPlanarOutput(dst)
      && FourCCLayout(dst) == Layout(false, f.chroma, f.bdOut)
  }

  predicate IsValidChroma(c: ChromaMode) { c != ChromaMaxEnum }

  /** Conversions offered from untiled 8-bit pictures (main.cpp:503-538). */
  function Get8BitsConversionFunction(f: ConvFormat): (r: Option<Kernel>)
    ensures r.Some? <==> f.bdIn == 8 && IsValidChroma(f.chroma) && (f.bdOut == 8 || f.bdOut == 10)
  {
    match f
    case ConvFormat(Chroma420, 8, 8) => Some(Convert(NV12, I420))
    case ConvFormat(Chroma420, 8, 10) => Some(Convert(NV12, I0AL))
    case ConvFormat(Chroma422, 8, 8) => Some(Convert(NV16, I422))
    case ConvFormat(Chroma422, 8, 10) => Some(Convert(NV16, I2AL))
    case ConvFormat(Chroma444, 8, 8) => Some(CopyPixMapBuffer)
    case ConvFormat(Chroma444, 8, 10) => Some(Convert(I444, I4AL))
    case ConvFormat(Chroma400, 8, 8) => Some(CopyPixMapBuffer)
    case ConvFormat(Chroma400, 8, 10) => Some(Convert(Y800, Y010))
    case _ => None
  }

  /** Conversions offered from untiled 10-bit pictures (main.cpp:540-578). */
  function Get10BitsConversionFunction(f: ConvFormat): (r: Option<Kernel>)
    ensures r.Some? <==> f.bdIn == 10 && IsValidChroma(f.chroma) && (f.bdOut == 8 || f.bdOut == 10)
  {
    match f
    case ConvFormat(Chroma420, 10, 10) => Some(Convert(XV15, I0AL))
    case ConvFormat(Chroma420, 10, 8) => Some(Convert(XV15, I420))
    case ConvFormat(Chroma422, 10, 10) => Some(Convert(XV20, I2AL))
    case ConvFormat(Chroma422, 10, 8) => Some(Convert(XV20, I422))
    case ConvFormat(Chroma444, 10, 10) => Some(CopyPixMapBuffer)
    case ConvFormat(Chroma444, 10, 8) => Some(Convert(I4AL, I444))
    case ConvFormat(Chroma400, 10, 10) => Some(Convert(XV10, Y010))
    case ConvFormat(Chroma400, 10, 8) => Some(Convert(XV10, Y800))
    case _ => None
  }

  /** Conversions offered from untiled 12-bit pictures (main.cpp:580-631). */
  function Get12BitsConversionFunction(f: ConvFormat): (r: Option<Kernel>)
    ensures r.Some? <==> f.bdIn == 12 && IsValidChroma(f.chroma) && (f.bdOut == 8 || f.bdOut == 10 || f.bdOut == 12)
  {
    match f
    case ConvFormat(Chroma420, 12, 12) => Some(Convert(P012, I0CL))
    case ConvFormat(Chroma420, 12, 10) => Some(Convert(P012, I0AL))
    case ConvFormat(Chroma420, 12, 8) => Some(Convert(P012, I420))
    case ConvFormat(Chroma422, 12, 12) => Some(Convert(P212, I2CL))
    case ConvFormat(Chroma422, 12, 10) => Some(Convert(P212, I2AL))
    case ConvFormat(Chroma422, 12, 8) => Some(Convert(P212, I422))
    case ConvFormat(Chroma444, 12, 12) => Some(CopyPixMapBuffer)
    case ConvFormat(Chroma444, 12, 10) => Some(Convert(I4CL, I4AL))
    case ConvFormat(Chroma444, 12, 8) => Some(Convert(I4CL, I444))
    case ConvFormat(Chroma400, 12, 12) => Some(CopyPixMapBuffer)
    case ConvFormat(Chroma400, 12, 10) => Some(Convert(Y012, Y010))
    case ConvFormat(Chroma400, 12, 8) => Some(Convert(Y012, Y800))
    case _ => None
  }

  /** Every entry of the 8-bit table reads the decoder's untiled layout for that input and
      writes the requested planar format, or is a copy that changes nothing. */
  lemma EightBitsConversionFits(f: ConvFormat)
    ensures Get8BitsConversionFunction(f).Some? ==> KernelFits(Get8BitsConversionFunction(f).value, f, false)
  {
    match f.chroma {
      case Chroma400 =>
      case Chroma420 =>
      case Chroma422 =>
      case Chroma444 =>
      case ChromaMaxEnum =>
    }
  }

  /** Every entry of the 10-bit table reads the decoder's untiled layout for that input and
      writes the requested planar format, or is a copy that changes nothing. */
  lemma TenBitsConversionFits(f: ConvFormat)
    ensures Get10BitsConversionFunction(f).Some? ==> KernelFits(Get10BitsConversionFunction(f).value, f, false)
  {
    match f.chroma {
      case Chroma400 =>
      case Chroma420 =>
      case Chroma422 =>
      case Chroma444 =>
      case ChromaMaxEnum =>
    }
  }

  /** Every entry of the 12-bit table reads the decoder's untiled layout for that input and
      writes the requested planar format, or is a copy that changes nothing. */
  lemma TwelveBitsConversionFits(f: ConvFormat)
    ensures Get12BitsConversionFunction(f).Some? ==> KernelFits(Get12BitsConversionFunction(f).value, f, false)
  {
    match f.chroma {
      case Chroma400 =>
      case Chroma420 =>
      case Chroma422 =>
      case Chroma444 =>
      case ChromaMaxEnum =>
    }
  }

  /** Conversions offered from tiled pictures (main.cpp:633-711). 4:4:4 only keeps its
      bit depth; the other chroma modes go from 8 or 10 bits to 8 or 10 bits, and from
      12 bits to 8, 10 or 12 bits. */
  function GetTileConversionFunction(f: ConvFormat): (r: Option<Kernel>)
    ensures r.Some? <==>
      && IsValidChroma(f.chroma)
      && (f.bdIn == 8 || f.bdIn == 10 || f.bdIn == 12)
      && (f.chroma == Chroma444 ==> f.bdIn == f.bdOut)
      && (f.bdOut == 8 || f.bdOut == 10 || (f.bdIn == 12 && f.bdOut == 12))
  {
    match f
    case ConvFormat(Chroma420, 8, 8) => Some(Convert(T608, I420))
    case ConvFormat(Chroma422, 8, 8) => Some(Convert(T628, I422))
    case ConvFormat(Chroma444, 8, 8) => Some(Convert(T648, I444))
    case ConvFormat(Chroma420, 8, 10) => Some(Convert(T608, I0AL))
    case ConvFormat(Chroma422, 8, 10) => Some(Convert(T628, I2AL))
    case ConvFormat(Chroma400, 8, 8) => Some(Convert(T608, Y800))
    case ConvFormat(Chroma400, 8, 10) => Some(Convert(T608, Y010))
    case ConvFormat(Chroma420, 10, 10) => Some(Convert(T60A, I0AL))
    case ConvFormat(Chroma420, 10, 8) => Some(Convert(T60A, I420))
    case ConvFormat(Chroma422, 10, 10) => Some(Convert(T62A, I2AL))
    case ConvFormat(Chroma422, 10, 8) => Some(Convert(T62A, I422))
    case ConvFormat(Chroma444, 10, 10) => Some(Convert(T64A, I4AL))
    case ConvFormat(Chroma400, 10, 10) => Some(Convert(T60A, Y010))
    case ConvFormat(Chroma400, 10, 8) => Some(Convert(T60A, Y800))
    case ConvFormat(Chroma400, 12, 12) => Some(Convert(T60C, Y012))
    case ConvFormat(Chroma400, 12, 10) => Some(Convert(T60C, Y010))
    case ConvFormat(Chroma400, 12, 8) => Some(Convert(T60C, Y800))
    case ConvFormat(Chroma420, 12, 12) => Some(Convert(T60C, I0CL))
    case ConvFormat(Chroma420, 12, 10) => Some(Convert(T60C, I0AL))
    case ConvFormat(Chroma420, 12, 8) => Some(Convert(T60C, I420))
    case ConvFormat(Chroma422, 12, 12) => Some(Convert(T62C, I2CL))
    case ConvFormat(Chroma422, 12, 10) => Some(Convert(T62C, I2AL))
    case ConvFormat(Chroma422, 12, 8) => Some(Convert(T62C, I422))
    case ConvFormat(Chroma444, 12, 12) => Some(Convert(T64C, I4CL))
    case _ => None
  }

  /** Every entry of the tile table reads a tiled layout of the input's chroma mode and bit
      depth and writes the planar layout of the requested bit depth; none is a plain copy. */
  lemma TileConversionFits(f: ConvFormat)
    ensures GetTileConversionFunction(f).Some? ==>
      GetTileConversionFunction(f).value != CopyPixMapBuffer && KernelFits(GetTileConversionFunction(f).value, f, true)
  {
    if f.bdIn == 8 {
      TileConversionFitsFrom8(f.chroma, f.bdOut);
    } else if f.bdIn == 10 {
      TileConversionFitsFrom10(f.chroma, f.bdOut);
    } else if f.bdIn == 12 {
      TileConversionFitsFrom12(f.chroma, f.bdOut);
    }
  }

  /** The 8-bit entries of the tile table. */
  lemma TileConversionFitsFrom8(c: ChromaMode, bdOut: int)
    ensures var f := ConvFormat(c, 8, bdOut);
      GetTileConversionFunction(f).Some? ==>
      GetTileConversionFunction(f).value != CopyPixMapBuffer && KernelFits(GetTileConversionFunction(f).value, f, true)
  {
    match c {
      case Chroma400 =>
      case Chroma420 =>
      case Chroma422 =>
      case Chroma444 =>
      case ChromaMaxEnum =>
    }
  }

  /** The 10-bit entries of the tile table. */
  lemma TileConversionFitsFrom10(c: ChromaMode, bdOut: int)
    ensures var f := ConvFormat(c, 10, bdOut);
      GetTileConversionFunction(f).Some? ==>
      GetTileConversionFunction(f).value != CopyPixMapBuffer && KernelFits(GetTileConversionFunction(f).value, f, true)
  {
    match c {
      case Chroma400 =>
      case Chroma420 =>
      case Chroma422 =>
      case Chroma444 =>
      case ChromaMaxEnum =>
    }
  }

  /** The 12-bit entries of the tile table. */
  lemma TileConversionFitsFrom12(c: ChromaMode, bdOut: int)
    ensures var f := ConvFormat(c, 12, bdOut);
      GetTileConversionFunction(f).Some? ==>
      GetTileConversionFunction(f).value != CopyPixMapBuffer && KernelFits(GetTileConversionFunction(f).value, f, true)
  {
    match c {
      case Chroma400 =>
      case Chroma420 =>
      case Chroma422 =>
      case Chroma444 =>
      case ChromaMaxEnum =>
    }
  }

  /** The combinations the harness can convert, stated independently of the tables. */
  ghost predicate Supported(c: ChromaMode, bdIn: int, bdOut: int, tiled: bool)
  {
    && IsValidChroma(c)
    && (bdIn == 8 || bdIn == 10 || bdIn == 12)
    && (bdOut == 8 || bdOut == 10 || bdOut == 12)
    && (bdOut == 12 ==> bdIn == 12)
    && (tiled && c == Chroma444 ==> bdIn == bdOut)
  }

  /** GetConversionFunction (main.cpp:713-727): a tiled picture always goes to the tile
      table; an untiled one to the 8-bit table for depth 8, the 10-bit table for depth 10
      and the 12-bit table for every other depth. None stands for the `assert(0)` and null
      return of an unlisted key. */
  function GetConversionFunction(c: ChromaMode, bdIn: int, tiled: bool, bdOut: int): (r: Option<Kernel>)
    ensures r.Some? <==> Supported(c, bdIn, bdOut, tiled)
    ensures r.Some? ==> KernelFits(r.value, ConvFormat(c, bdIn, bdOut), tiled)
    ensures r == Some(CopyPixMapBuffer) <==>
      !tiled && bdIn == bdOut && (bdIn == 8 || bdIn == 10 || bdIn == 12)
      && (c == Chroma444 || (c == Chroma400 && bdIn != 10))
  {
    var fmt := ConvFormat(c, bdIn, bdOut);
    if tiled then TileConversionFits(fmt); GetTileConversionFunction(fmt)
    else if bdIn == 8 then EightBitsConversionFits(fmt); Get8BitsConversionFunction(fmt)
    else if bdIn == 10 then TenBitsConversionFits(fmt); Get10BitsConversionFunction(fmt)
    else TwelveBitsConversionFits(fmt); Get12BitsConversionFunction(fmt)
  }

  /** GetConvFormat on 32-bit values: ChromaMode | iBdIn << 8 | iBdOut << 16. */
  function PackConvFormat(chroma: bv32, bdIn: bv32, bdOut: bv32): bv32
  {
    chroma | (bdIn << 8) | (bdOut << 16)
  }

  /** Reads the three fields back out of a packed key. */
  function UnpackConvFormat(key: bv32): (bv32, bv32, bv32)
  {
    (key & 0xFF, (key >> 8) & 0xFF, key >> 16)
  }

  /** For chroma codes and input bit depths below 256 and output bit depths below 65536 the
      three fields occupy disjoint bits of the key and can be read back. */
  lemma UnpackPackConvFormat(c: bv32, i: bv32, o: bv32)
    requires c < 256 && i < 256 && o < 65536
    ensures UnpackConvFormat(PackConvFormat(c, i, o)) == (c, i, o)
  {
  }

  /** So the packed key tells the tables' entries apart: two triples in that range share a
      key only if they are equal, and the tables may be indexed by the triple itself. */
  lemma PackConvFormatInjective(c1: bv32, i1: bv32, o1: bv32, c2: bv32, i2: bv32, o2: bv32)
    requires c1 < 256 && c2 < 256 && i1 < 256 && i2 < 256 && o1 < 65536 && o2 < 65536
    ensures PackConvFormat(c1, i1, o1) == PackConvFormat(c2, i2, o2) <==> c1 == c2 && i1 == i2 && o1 == o2
  {
    UnpackPackConvFormat(c1, i1, o1);
    UnpackPackConvFormat(c2, i2, o2);
  }

  /** Distinct chroma modes have distinct codes, so they land on distinct packed keys. */
  lemma ChromaCodeInjective(c1: ChromaMode, c2: ChromaMode)
    ensures ChromaCode(c1) == ChromaCode(c2) <==> c1 == c2
  {
  }
}
