/** The uncompressed output writer of the decoder harness (exe_decoder/main.cpp,
    ConvertFrameBuffer, BaseOutputWriter::ProcessOutput and UncompressedOutputWriter):
    it converts each displayed picture into a planar buffer that it keeps between frames,
    crops it, optionally hands it to the certification CRC and writes it to the YUV file.
    Files are modelled as the sequence of what is written to them. */
module OutputWriter {
  import opened Common
  import opened Conversion
  import Hex

  datatype Dimension = Dimension(width: int, height: int)

  /** The destination's picture format: its chroma mode and its bit depth as stored
      (a uint8_t in the source, hence modulo 256). */
  datatype PixFormat = PixFormat(chroma: ChromaMode, bitDepth: int)

  datatype PlaneId = PlaneY | PlaneU | PlaneV

  /** AL_TPlaneDescription: which plane, where it starts in the buffer, its row pitch. */
  datatype PlaneDesc = PlaneDesc(plane: PlaneId, offset: int, pitch: int)

  /** The planes of a buffer and the number of bytes allocated for them. */
  datatype BufferLayout = BufferLayout(planes: seq<PlaneDesc>, size: int)

  /** The decoded picture handed to the writer: its dimension and what its FourCC says
      (AL_GetChromaMode, AL_GetBitDepth, AL_IsTiled are library calls). */
  datatype RecPicture = RecPicture(dim: Dimension, chroma: ChromaMode, bdIn: int, tiled: bool)

  /** AL_TCropInfo. */
  datatype CropInfo = CropInfo(cropping: bool, left: nat, right: nat, top: nat, bottom: nat)

  /** The fields of AL_TInfoDecode that the writer reads. */
  datatype InfoDecode = InfoDecode(crc: nat, bitDepthY: int, bitDepthC: int, crop: CropInfo)

  /** How the two allocations of a new destination buffer turn out (AL_PixMapBuffer_Create,
      then AL_PixMapBuffer_Allocate_And_AddPlanes). */
  datatype AllocOutcome = AllocOk | CreateFails | PlanesFail

  /** The runtime errors the writer throws, and the null routine of an unlisted format. */
  datatype WriterError = CouldNotAllocateYuvBuffer | CouldNotAllocatePlanes | NoConversionRoutine

  /** One call of Compute_CRC: the bit depths it is given, the sample counts, the chroma
      mode and whether it takes the 8-bit path. */
  datatype CertCrcCall = CertCrcCall(bitDepthY: int, bitDepthC: int, bdOut: int, numPix: int,
                                     numPixC: int, chroma: ChromaMode, eightBit: bool)

  /** Bytes per sample: (iBdOut + 7) >> 3. An arithmetic right shift is a division that
      rounds down, which is what Dafny's `/` does for a positive divisor. */
  function SampleBytes(bd: int): (n: int)
    ensures bd >= 1 ==> n >= 1 && 8 * (n - 1) < bd <= 8 * n
  {
    (bd + 7) / 8
  }

  /** (a + s - 1) / s in C, which is the rounded-up quotient for a >= 0. */
  function CeilDiv(a: int, s: int): (q: int)
    requires s >= 1
    ensures a >= 0 ==> q * s >= a && (q - 1) * s < a
  {
    CDiv(a + s - 1, s)
  }

  /** convertBitDepthToEven (main.cpp:857-860). C's `%` gives -1 for a negative odd value
      and Dafny's gives 1; both differ from 0, so the test is the same. */
  function ConvertBitDepthToEven(bd: int): (r: int)
    ensures r % 2 == 0
    ensures bd <= r <= bd + 1
  {
    if bd % 2 != 0 then bd + 1 else bd
  }

  /** The planes follow one another without gap or overlap, the luma plane first, and the
      last one ends at the buffer's size. */
  ghost predicate PlanesTile(l: BufferLayout, lumaRows: int, chromaRows: int)
  {
    && |l.planes| >= 1
    && l.planes[0].offset == 0
    && (forall k :: 0 <= k < |l.planes| - 1 ==>
          l.planes[k + 1].offset == l.planes[k].offset + l.planes[k].pitch * (if k == 0 then lumaRows else chromaRows))
    && l.size == l.planes[|l.planes| - 1].offset
                 + l.planes[|l.planes| - 1].pitch * (if |l.planes| == 1 then lumaRows else chromaRows)
  }

  /** The layout ConvertFrameBuffer gives a new destination (main.cpp:761-776): one plane for
      a monochrome picture, Y, U and V otherwise; the luma pitch holds one row of samples,
      the chroma pitch that divided by the horizontal subsampling and rounded up, and the
      chroma planes have the picture's height divided by the vertical subsampling, rounded up. */
  function DestinationLayout(dim: Dimension, bd: int, chroma: ChromaMode, sx: int, sy: int): (l: BufferLayout)
    requires sx >= 1 && sy >= 1
    ensures |l.planes| == (if chroma == Chroma400 then 1 else 3)
    ensures l.planes[0] == PlaneDesc(PlaneY, 0, SampleBytes(bd) * dim.width)
    ensures |l.planes| == 3 ==> l.planes[1].plane == PlaneU && l.planes[2].plane == PlaneV
    ensures |l.planes| == 3 ==> l.planes[1].pitch == l.planes[2].pitch == CeilDiv(SampleBytes(bd) * dim.width, sx)
    ensures PlanesTile(l, dim.height, CeilDiv(dim.height, sy))
  {
    var pitchY := SampleBytes(bd) * dim.width;
    var pitchC := CeilDiv(pitchY, sx);
    var sizeY := pitchY * dim.height;
    var sizeC := pitchC * CeilDiv(dim.height, sy);
    var planes := [PlaneDesc(PlaneY, 0, pitchY), PlaneDesc(PlaneU, sizeY, pitchC), PlaneDesc(PlaneV, sizeY + sizeC, pitchC)];
    if chroma == Chroma400 then BufferLayout(planes[..1], sizeY)
    else BufferLayout(planes, sizeY + 2 * sizeC)
  }

  /** Number of chroma samples ProcessFrame counts for one chroma plane (main.cpp:881). */
  function ChromaSamples(dim: Dimension, chroma: ChromaMode, sx: int, sy: int): int
    requires sx >= 1 && sy >= 1
  {
    if chroma == Chroma400 then 0 else CeilDiv(dim.width, sx) * CeilDiv(dim.height, sy)
  }

  /** The number of bytes ProcessFrame writes to the YUV file (main.cpp:880-881, 897). */
  function FrameBytes(dim: Dimension, bd: int, chroma: ChromaMode, sx: int, sy: int): int
    requires sx >= 1 && sy >= 1
  {
    (dim.height * dim.width + 2 * ChromaSamples(dim, chroma, sx, sy)) * SampleBytes(bd)
  }

  /** When the picture's width is a multiple of the horizontal subsampling (always so for the
      decoders' dimensions, which are multiples of 8), an uncropped frame fills its
      destination buffer exactly: the bytes written are the bytes allocated. */
  lemma FrameBytesFillLayout(dim: Dimension, bd: int, chroma: ChromaMode, sx: int, sy: int)
    requires sx >= 1 && sy >= 1 && dim.width >= 0 && dim.height >= 0 && bd >= 1
    requires dim.width % sx == 0
    ensures FrameBytes(dim, bd, chroma, sx, sy) == DestinationLayout(dim, bd, chroma, sx, sy).size
  {
    var n := SampleBytes(bd);
    var q := dim.width / sx;
    var rowsC := CeilDiv(dim.height, sy);
    ExactRows(dim.width, sx, n);
    var mono := chroma == Chroma400;
    assert ChromaSamples(dim, chroma, sx, sy) == if mono then 0 else q * rowsC;
    assert DestinationLayout(dim, bd, chroma, sx, sy).size
      == if mono then (n * dim.width) * dim.height else (n * dim.width) * dim.height + 2 * ((n * q) * rowsC);
    BytesRegroup(dim.height, dim.width, q, rowsC, n, mono);
  }

  /** A width that is a multiple of the subsampling divides exactly, in samples and in
      bytes. */
  lemma ExactRows(w: int, sx: int, n: int)
    requires w >= 0 && sx >= 1 && n >= 1 && w % sx == 0
    ensures CeilDiv(w, sx) == w / sx
    ensures CeilDiv(n * w, sx) == n * (w / sx)
  {
    var q := w / sx;
    assert w == q * sx;
    assert n * w == (n * q) * sx;
    DivExact(n * q, sx);
    DivExact(q, sx);
  }

  /** The bytes written, regrouped as the planes' pitches times their rows. */
  lemma BytesRegroup(h: int, w: int, q: int, r: int, n: int, mono: bool)
    ensures (h * w + 2 * (if mono then 0 else q * r)) * n
      == if mono then (n * w) * h else (n * w) * h + 2 * ((n * q) * r)
  {
    assert (h * w) * n == (n * w) * h;
    assert (q * r) * n == (n * q) * r;
  }

  /** (m * s + s - 1) / s == m for m >= 0. */
  lemma DivExact(m: int, s: int)
    requires m >= 0 && s >= 1
    ensures CeilDiv(m * s, s) == m
  {
    DivUnique(m * s + s - 1, s, m);
  }

  /** The destination buffer the writer keeps between frames (its YuvBuffer). */
  class PixMapBuffer {
    var dim: Dimension
    const format: PixFormat
    /** None when the planes could not be allocated. */
    const layout: Option<BufferLayout>
    var destroyed: bool

    constructor (dim: Dimension, format: PixFormat, layout: Option<BufferLayout>)
      ensures this.dim == dim && this.format == format && this.layout == layout && !destroyed
    {
      this.dim := dim;
      this.format := format;
      this.layout := layout;
      destroyed := false;
    }

    /** AL_Buffer_Destroy. */
    method Destroy()
      modifies this
      ensures destroyed && dim == old(dim)
    {
      destroyed := true;
    }

    /** CropFrame is an external routine; its effect on the buffer is to remove the given
        borders, so the picture's dimension shrinks by them. */
    method CropFrame(left: nat, right: nat, top: nat, bottom: nat)
      modifies this
      ensures dim == Dimension(old(dim.width) - (left + right), old(dim.height) - (top + bottom))
      ensures destroyed == old(destroyed)
    {
      dim := Dimension(dim.width - (left + right), dim.height - (top + bottom));
    }
  }

  class UncompressedOutputWriter {
    const yuvFileOpen: bool
    const ipCrcFileOpen: bool
    const certCrcFileOpen: bool
    var yuvBuffer: PixMapBuffer?
    /** The sizes, in bytes, of the successive writes to the YUV file. */
    var yuvFile: seq<int>
    /** The lines of the IP CRC file. */
    var ipCrcFile: seq<string>
    /** The calls of Compute_CRC on the certification CRC file. */
    var certCrcFile: seq<CertCrcCall>
    /** The conversion routines run, in order. */
    var conversions: seq<Kernel>

    ghost predicate Valid()
      reads this, yuvBuffer
    {
      yuvBuffer != null ==> !yuvBuffer.destroyed
    }

    constructor (yuvFileOpen: bool, ipCrcFileOpen: bool, certCrcFileOpen: bool)
      ensures Valid()
      ensures this.yuvFileOpen == yuvFileOpen && this.ipCrcFileOpen == ipCrcFileOpen
      ensures this.certCrcFileOpen == certCrcFileOpen
      ensures yuvBuffer == null && yuvFile == [] && ipCrcFile == [] && certCrcFile == [] && conversions == []
    {
      this.yuvFileOpen := yuvFileOpen;
      this.ipCrcFileOpen := ipCrcFileOpen;
      this.certCrcFileOpen := certCrcFileOpen;
      yuvBuffer := null;
      yuvFile, ipCrcFile, certCrcFile, conversions := [], [], [], [];
    }

    /** ConvertFrameBuffer (main.cpp:729-785): the destination is kept exactly when its
        dimension matches the picture's; otherwise it is destroyed and a new one is made
        with the picture's dimension, the requested bit depth and DestinationLayout. Then
        the routine GetConversionFunction picks is run. */
    method ConvertFrameBuffer(rec: RecPicture, bdOut: int, sx: int, sy: int, alloc: AllocOutcome)
      returns (res: Result<Kernel, WriterError>)
      requires sx >= 1 && sy >= 1
      requires Valid()
      modifies this, yuvBuffer
      ensures Valid()
      ensures yuvFile == old(yuvFile) && ipCrcFile == old(ipCrcFile) && certCrcFile == old(certCrcFile)
      ensures old(yuvBuffer) != null && old(yuvBuffer.dim) == rec.dim ==>
        yuvBuffer == old(yuvBuffer) && yuvBuffer.dim == rec.dim
      ensures old(yuvBuffer) != null && old(yuvBuffer.dim) != rec.dim ==> old(yuvBuffer).destroyed
      ensures (old(yuvBuffer) == null || old(yuvBuffer.dim) != rec.dim) ==>
        if alloc == CreateFails then yuvBuffer == null && res == Err(CouldNotAllocateYuvBuffer)
        else
          && fresh(yuvBuffer)
          && yuvBuffer.dim == rec.dim
          && yuvBuffer.format == PixFormat(rec.chroma, bdOut % 256)
          && yuvBuffer.layout == (if alloc == AllocOk then Some(DestinationLayout(rec.dim, bdOut, rec.chroma, sx, sy)) else None)
          && (alloc == PlanesFail ==> res == Err(CouldNotAllocatePlanes))
      ensures (old(yuvBuffer) != null && old(yuvBuffer.dim) == rec.dim) || alloc == AllocOk ==>
        res == match GetConversionFunction(rec.chroma, rec.bdIn, rec.tiled, bdOut)
               case Some(k) => Ok(k)
               case None => Err(NoConversionRoutine)
      ensures conversions == old(conversions) + (if res.Ok? then [res.value] else [])
    {
      if yuvBuffer != null && yuvBuffer.dim != rec.dim {
        yuvBuffer.Destroy();
        yuvBuffer := null;
      }
      if yuvBuffer == null {
        if alloc == CreateFails {
          return Err(CouldNotAllocateYuvBuffer);
        }
        var layout := DestinationLayout(rec.dim, bdOut, rec.chroma, sx, sy);
        yuvBuffer := new PixMapBuffer(rec.dim, PixFormat(rec.chroma, bdOut % 256),
                                      if alloc == AllocOk then Some(layout) else None);
        if alloc == PlanesFail {
          return Err(CouldNotAllocatePlanes);
        }
      }
      var convert := GetConversionFunction(rec.chroma, rec.bdIn, rec.tiled, bdOut);
      if convert.None? {
        return Err(NoConversionRoutine);
      }
      conversions := conversions + [convert.value];
      res := Ok(convert.value);
    }

    /** The destination after CropFrame: the picture's dimension less the crop borders when
        the picture asks for cropping. */
    static function CroppedDim(rec: RecPicture, info: InfoDecode): Dimension
    {
      if info.crop.cropping
      then Dimension(rec.dim.width - (info.crop.left + info.crop.right),
                     rec.dim.height - (info.crop.top + info.crop.bottom))
      else rec.dim
    }

    /** What UncompressedOutputWriter::ProcessFrame does between the state before the call
        and the state after it; `prev` is the destination before the call. With neither the
        YUV nor the certification CRC file open it returns without a routine and changes
        nothing. Otherwise, at the evened bit depth, the destination is kept when its
        dimension matches, else destroyed and replaced (with no buffer left when
        AL_PixMapBuffer_Create fails, with no planes when the planes cannot be allocated);
        the routine GetConversionFunction picks is run, or the call fails without one; on
        success the destination is cropped, Compute_CRC gets the sample counts and the 8-bit
        flag, and FrameBytes of the cropped dimension are written. A failure writes nothing
        to either file and runs no routine. */
    twostate predicate FrameProcessed(prev: PixMapBuffer?, rec: RecPicture, info: InfoDecode,
                                      bdOut: int, sx: int, sy: int, alloc: AllocOutcome,
                                      new res: Result<Option<Kernel>, WriterError>)
      requires sx >= 1 && sy >= 1
      reads this, yuvBuffer, prev
    {
      old(yuvBuffer) == prev &&
      if !(yuvFileOpen || certCrcFileOpen) then
        && res == Ok(None) && yuvFile == old(yuvFile) && certCrcFile == old(certCrcFile)
        && yuvBuffer == prev && conversions == old(conversions)
        && (yuvBuffer != null ==> yuvBuffer.dim == old(prev.dim) && yuvBuffer.destroyed == old(prev.destroyed))
      else
        var bd := ConvertBitDepthToEven(bdOut);
        var reuse := prev != null && old(prev.dim) == rec.dim;
        var convert := GetConversionFunction(rec.chroma, rec.bdIn, rec.tiled, bd);
        && (reuse ==> yuvBuffer == prev)
        && (prev != null && !reuse ==> prev.destroyed)
        && (!reuse && alloc == CreateFails ==> yuvBuffer == null && res == Err(CouldNotAllocateYuvBuffer))
        && (!reuse && alloc != CreateFails ==>
              && fresh(yuvBuffer)
              && yuvBuffer.format == PixFormat(rec.chroma, bd % 256)
              && yuvBuffer.layout == (if alloc == AllocOk then Some(DestinationLayout(rec.dim, bd, rec.chroma, sx, sy)) else None))
        && (!reuse && alloc == PlanesFail ==> res == Err(CouldNotAllocatePlanes) && yuvBuffer.dim == rec.dim)
        && (reuse || alloc == AllocOk ==>
              res == match convert case Some(k) => Ok(Some(k)) case None => Err(NoConversionRoutine))
        && (res == Err(NoConversionRoutine) ==> yuvBuffer != null && yuvBuffer.dim == rec.dim)
        && (res.Err? ==> yuvFile == old(yuvFile) && certCrcFile == old(certCrcFile) && conversions == old(conversions))
        && (res.Ok? ==>
              var dim := CroppedDim(rec, info);
              && res.value.Some? && convert == res.value
              && conversions == old(conversions) + [res.value.value]
              && yuvBuffer != null && yuvBuffer.dim == dim
              && yuvFile == old(yuvFile) + (if yuvFileOpen then [FrameBytes(dim, bd, rec.chroma, sx, sy)] else [])
              && certCrcFile == old(certCrcFile) +
                   (if certCrcFileOpen
                    then [CertCrcCall(info.bitDepthY, info.bitDepthC, bd, dim.height * dim.width,
                                      ChromaSamples(dim, rec.chroma, sx, sy), rec.chroma, bd == 8)]
                    else []))
    }

    /** UncompressedOutputWriter::ProcessFrame (main.cpp:862-898): nothing happens unless the
        YUV or the certification CRC file is open; otherwise the bit depth is made even, the
        picture converted, the destination cropped if the picture asks for it, the CRC
        computed on the 8-bit or the 16-bit path, and (iNumPix + 2 * iNumPixC) * iSizePix
        bytes written, counted on the cropped dimension. The routine run is returned, None
        when the call returns early. */
    method ProcessFrame(rec: RecPicture, info: InfoDecode, bdOut: int, sx: int, sy: int, alloc: AllocOutcome)
      returns (res: Result<Option<Kernel>, WriterError>)
      requires sx >= 1 && sy >= 1
      requires Valid()
      modifies this, yuvBuffer
      ensures Valid()
      ensures ipCrcFile == old(ipCrcFile)
      ensures FrameProcessed(old(yuvBuffer), rec, info, bdOut, sx, sy, alloc, res)
    {
      if !(yuvFileOpen || certCrcFileOpen) {
        return Ok(None);
      }
      var bd := ConvertBitDepthToEven(bdOut);
      var converted := ConvertFrameBuffer(rec, bd, sx, sy, alloc);
      if converted.Err? {
        return Err(converted.error);
      }
      CropAndWrite(rec, info, bd, sx, sy);
      res := Ok(Some(converted.value));
    }

    /** The end of ProcessFrame once the picture is converted: the destination cropped when
        the picture asks for it, then the certification CRC and the YUV bytes of the cropped
        dimension. */
    method CropAndWrite(rec: RecPicture, info: InfoDecode, bd: int, sx: int, sy: int)
      requires sx >= 1 && sy >= 1
      requires Valid() && yuvBuffer != null && yuvBuffer.dim == rec.dim
      modifies this, yuvBuffer
      ensures Valid() && yuvBuffer == old(yuvBuffer) && yuvBuffer.dim == CroppedDim(rec, info)
      ensures ipCrcFile == old(ipCrcFile) && conversions == old(conversions)
      ensures var dim := CroppedDim(rec, info);
        && yuvFile == old(yuvFile) + (if yuvFileOpen then [FrameBytes(dim, bd, rec.chroma, sx, sy)] else [])
        && certCrcFile == old(certCrcFile) +
             (if certCrcFileOpen
              then [CertCrcCall(info.bitDepthY, info.bitDepthC, bd, dim.height * dim.width,
                                ChromaSamples(dim, rec.chroma, sx, sy), rec.chroma, bd == 8)]
              else [])
    {
      if info.crop.cropping {
        yuvBuffer.CropFrame(info.crop.left, info.crop.right, info.crop.top, info.crop.bottom);
      }
      var dim := yuvBuffer.dim;
      var numPix := dim.height * dim.width;
      var numPixC := ChromaSamples(dim, rec.chroma, sx, sy);
      if certCrcFileOpen {
        certCrcFile := certCrcFile + [CertCrcCall(info.bitDepthY, info.bitDepthC, bd, numPix, numPixC, rec.chroma, bd == 8)];
      }
      if yuvFileOpen {
        yuvFile := yuvFile + [(numPix + 2 * numPixC) * SampleBytes(bd)];
      }
    }

    /** BaseOutputWriter::ProcessOutput (main.cpp:816-822): one line with the picture's CRC in
        eight upper-case hexadecimal digits when the IP CRC file is open, then ProcessFrame. */
    method ProcessOutput(rec: RecPicture, info: InfoDecode, bdOut: int, sx: int, sy: int, alloc: AllocOutcome)
      returns (res: Result<Option<Kernel>, WriterError>)
      requires sx >= 1 && sy >= 1 && info.crc <= UINT_MAX
      requires Valid()
      modifies this, yuvBuffer
      ensures Valid()
      ensures FrameProcessed(old(yuvBuffer), rec, info, bdOut, sx, sy, alloc, res)
      ensures ipCrcFile == old(ipCrcFile) + (if ipCrcFileOpen then [Hex.HexFixed(info.crc, 8, true)] else [])
      ensures |ipCrcFile| == |old(ipCrcFile)| + (if ipCrcFileOpen then 1 else 0)
      ensures ipCrcFileOpen ==> Hex.HexValue(ipCrcFile[|ipCrcFile| - 1]) == info.crc
    {
      if ipCrcFileOpen {
        ipCrcFile := ipCrcFile + [Hex.HexFixed(info.crc, 8, true)];
      }
      res := ProcessFrame(rec, info, bdOut, sx, sy, alloc);
    }
  }
}
