/** The resolution-found callback of the decoder harness (exe_decoder/main.cpp,
    sResolutionFound and sConfigureDecBufPool): the first time the decoder reports the
    stream's resolution, the picture buffer pool is laid out (one chunk per buffer, or one
    chunk per plane in multi-chunk mode), initialised with one buffer more than the decoder
    asks for, and every buffer is handed to the decoder. Later calls, on a resolution
    change, leave the pool as it is. */
module Resolution {
  import opened Common

  /** The pixel planes of a decoded picture buffer (AL_EPlaneId, for pixel planes). */
  datatype BufPlane = PlaneY | PlaneUV | PlaneU | PlaneV

  /** AL_TPlaneDescription: the plane, its byte offset in its chunk and its pitch. */
  datatype PlaneDesc = PlaneDesc(plane: BufPlane, offset: int, pitch: int)

  /** A memory chunk of every pool buffer: its size and the planes it holds. */
  datatype Chunk = Chunk(size: int, planes: seq<PlaneDesc>)

  /** The dimension and FourCC the pool is set to (PixMapBufPool::SetFormat). */
  datatype PoolFormat = PoolFormat(width: int, height: int, fourCC: nat)

  /** What sResolutionFound learns from the library for the stream: the dimension, the
      FourCC of the decoded pictures (AL_GetDecFourCC), the pixel planes of a buffer
      (AL_Plane_GetBufferPixelPlanes), the luma pitch (AL_Decoder_GetMinPitch), the chroma
      pitch (AL_GetChromaPitch), the size of each plane (AL_DecGetAllocSize_Frame_PixPlane,
      given the plane's pitch) and the size of a whole frame (AL_DecGetAllocSize_Frame). */
  datatype Geometry = Geometry(
    width: int, height: int, fourCC: nat,
    planes: seq<BufPlane>, pitchY: int, chromaPitch: int,
    planeSizes: seq<int>, frameSize: int)
  {
    /** One size per plane. */
    predicate WellFormed() { |planeSizes| == |planes| }
  }

  /** The result codes sResolutionFound returns. */
  datatype DecError = AlSuccess | AlError | AlErrNoMemory

  /** The byte AL_Buffer_MemSet fills a new buffer with. */
  const FILL_BYTE: int := 0xDE

  /** uDefaultNumBuffersHeldByNextComponent: the buffer the harness keeps to write output. */
  const BUFFERS_HELD_BY_NEXT_COMPONENT: int := 1

  /** A buffer handed to the decoder (AL_Decoder_PutDisplayPicture): its index in the pool,
      the byte it was filled with, and whether it carries HDR metadata. */
  datatype HandedBuffer = HandedBuffer(id: nat, fill: int, hdrMeta: bool)

  /** The sum of a sequence of sizes. */
  function Sum(s: seq<int>): int
  {
    if s == [] then 0 else Sum(s[..|s| - 1]) + s[|s| - 1]
  }

  /** The pitch of a plane: the luma pitch for the luma plane, the chroma pitch otherwise. */
  function PlanePitch(geo: Geometry, p: BufPlane): int
  {
    if p == PlaneY then geo.pitchY else geo.chromaPitch
  }

  /** The planes of the single chunk: each plane at the offset where the previous ones end. */
  function SingleDescs(geo: Geometry): (ds: seq<PlaneDesc>)
    requires geo.WellFormed()
    ensures |ds| == |geo.planes|
  {
    seq(|geo.planes|, i requires 0 <= i < |geo.planes| =>
      PlaneDesc(geo.planes[i], Sum(geo.planeSizes[..i]), PlanePitch(geo, geo.planes[i])))
  }

  /** The chunks of multi-chunk mode: one per plane, holding that plane alone at offset 0. */
  function MultiChunks(geo: Geometry): (cs: seq<Chunk>)
    requires geo.WellFormed()
    ensures |cs| == |geo.planes|
  {
    seq(|geo.planes|, i requires 0 <= i < |geo.planes| =>
      Chunk(geo.planeSizes[i], [PlaneDesc(geo.planes[i], 0, PlanePitch(geo, geo.planes[i]))]))
  }

  /** The chunks sConfigureDecBufPool adds to the pool. */
  function Layout(geo: Geometry, multiChunk: bool): seq<Chunk>
    requires geo.WellFormed()
  {
    if multiChunk then MultiChunks(geo) else [Chunk(Sum(geo.planeSizes), SingleDescs(geo))]
  }

  /** The total size of a sequence of chunks. */
  function ChunkBytes(cs: seq<Chunk>): int
  {
    if cs == [] then 0 else ChunkBytes(cs[..|cs| - 1]) + cs[|cs| - 1].size
  }

  /** Sum of a prefix one element longer. */
  lemma SumPrefix(s: seq<int>, i: nat)
    requires i < |s|
    ensures Sum(s[..i + 1]) == Sum(s[..i]) + s[i]
  {
    assert s[..i + 1][..i] == s[..i];
  }

  /** Either way, the chunks of a buffer hold exactly the bytes of its planes. */
  lemma LayoutBytes(geo: Geometry, multiChunk: bool)
    requires geo.WellFormed()
    ensures ChunkBytes(Layout(geo, multiChunk)) == Sum(geo.planeSizes)
  {
    if multiChunk {
      MultiChunkBytes(geo, |geo.planes|);
      assert MultiChunks(geo)[..|geo.planes|] == MultiChunks(geo);
      assert geo.planeSizes[..|geo.planes|] == geo.planeSizes;
    } else {
      assert [Chunk(Sum(geo.planeSizes), SingleDescs(geo))][..0] == [];
    }
  }

  lemma {:induction false} MultiChunkBytes(geo: Geometry, k: nat)
    requires geo.WellFormed() && k <= |geo.planes|
    ensures ChunkBytes(MultiChunks(geo)[..k]) == Sum(geo.planeSizes[..k])
  {
    if k > 0 {
      MultiChunkBytes(geo, k - 1);
      assert MultiChunks(geo)[..k][..k - 1] == MultiChunks(geo)[..k - 1];
      SumPrefix(geo.planeSizes, k - 1);
    }
  }

  /** In single-chunk mode the planes are packed one after the other from offset 0: each
      starts where the one before it ends, and the last ends at the end of the chunk. */
  lemma SingleChunkPacked(geo: Geometry)
    requires geo.WellFormed()
    ensures var l := Layout(geo, false);
      && |l| == 1 && |l[0].planes| == |geo.planes|
      && (|geo.planes| > 0 ==> l[0].planes[0].offset == 0)
      && (forall i :: 0 <= i < |geo.planes| - 1 ==>
            l[0].planes[i].offset + geo.planeSizes[i] == l[0].planes[i + 1].offset)
      && (|geo.planes| > 0 ==>
            l[0].planes[|geo.planes| - 1].offset + geo.planeSizes[|geo.planes| - 1] == l[0].size)
  {
    var n := |geo.planes|;
    forall i | 0 <= i < n - 1
      ensures Sum(geo.planeSizes[..i]) + geo.planeSizes[i] == Sum(geo.planeSizes[..i + 1])
    {
      SumPrefix(geo.planeSizes, i);
    }
    if n > 0 {
      assert geo.planeSizes[..0] == [];
      SumPrefix(geo.planeSizes, n - 1);
      assert geo.planeSizes[..n] == geo.planeSizes;
    }
  }

  /** In multi-chunk mode every plane is a chunk of its own size, at offset 0, with its
      pitch. */
  lemma MultiChunkPerPlane(geo: Geometry)
    requires geo.WellFormed()
    ensures var l := Layout(geo, true);
      && |l| == |geo.planes|
      && forall i :: 0 <= i < |l| ==>
           l[i].size == geo.planeSizes[i] && |l[i].planes| == 1 && l[i].planes[0].plane == geo.planes[i]
           && l[i].planes[0].offset == 0 && l[i].planes[0].pitch == PlanePitch(geo, geo.planes[i])
  {
  }

  /** PixMapBufPool, as far as the harness uses it. */
  datatype PoolState = PoolState(format: Option<PoolFormat>, chunks: seq<Chunk>, numBuffers: nat, taken: nat)
  {
    predicate Valid() { taken <= numBuffers }
  }

  /** The pool after sConfigureDecBufPool: the format set and the layout's chunks added. */
  function Configured(p: PoolState, geo: Geometry, multiChunk: bool): (r: PoolState)
    requires geo.WellFormed()
  {
    p.(format := Some(PoolFormat(geo.width, geo.height, geo.fourCC)),
       chunks := p.chunks + Layout(geo, multiChunk))
  }

  /** The buffer pool. Its implementation is not part of this model: the class keeps the
      format, the chunks, the number of buffers made by Init and how many were taken. */
  class BufPool {
    var format: Option<PoolFormat>
    var chunks: seq<Chunk>
    var numBuffers: nat
    var taken: nat

    function Value(): PoolState
      reads this
    {
      PoolState(format, chunks, numBuffers, taken)
    }

    constructor ()
      ensures Value() == PoolState(None, [], 0, 0)
    {
      format, chunks, numBuffers, taken := None, [], 0, 0;
    }

    method SetFormat(f: PoolFormat)
      modifies this
      ensures Value() == old(Value()).(format := Some(f))
    {
      format := Some(f);
    }

    method AddChunk(size: int, planes: seq<PlaneDesc>)
      modifies this
      ensures Value() == old(Value()).(chunks := old(chunks) + [Chunk(size, planes)])
    {
      chunks := chunks + [Chunk(size, planes)];
    }

    /** Init: makes `n` buffers when the allocator succeeds (`ok`), nothing otherwise. */
    method Init(n: int, ok: bool) returns (success: bool)
      modifies this
      ensures success == ok
      ensures ok ==> Value() == old(Value()).(numBuffers := if n < 0 then 0 else n, taken := 0)
      ensures !ok ==> Value() == old(Value())
    {
      success := ok;
      if ok {
        numBuffers, taken := if n < 0 then 0 else n, 0;
      }
    }

    /** GetBuffer(AL_BUF_MODE_NONBLOCK): the next free buffer, or none when all are taken. */
    method GetBuffer() returns (b: Option<nat>)
      requires Value().Valid()
      modifies this
      ensures old(taken) < numBuffers ==>
        b == Some(old(taken)) && Value() == old(Value()).(taken := old(taken) + 1)
      ensures old(taken) >= numBuffers ==> b == None && Value() == old(Value())
      ensures Value().Valid()
    {
      if taken < numBuffers {
        b := Some(taken);
        taken := taken + 1;
      } else {
        b := None;
      }
    }
  }

  /** The size sConfigureDecBufPool returns as written: iOffset, which multi-chunk mode
      resets to 0 after every plane. */
  function SizeAsWritten(geo: Geometry, multiChunk: bool): (size: int)
    requires geo.WellFormed()
    ensures size == if multiChunk then 0 else ChunkBytes(Layout(geo, false))
  {
    LayoutBytes(geo, false);
    if multiChunk then 0 else Sum(geo.planeSizes)
  }

  /** sConfigureDecBufPool as written. */
  method ConfigureDecBufPoolAsWritten(pool: BufPool, geo: Geometry, multiChunk: bool) returns (offset: int)
    requires geo.WellFormed()
    modifies pool
    ensures pool.Value() == Configured(old(pool.Value()), geo, multiChunk)
    ensures offset == SizeAsWritten(geo, multiChunk)
  {
    pool.SetFormat(PoolFormat(geo.width, geo.height, geo.fourCC));
    ghost var p0 := pool.Value();
    var descs: seq<PlaneDesc> := [];
    offset := 0;
    for i := 0 to |geo.planes|
      invariant multiChunk ==> descs == [] && offset == 0 && pool.Value() == p0.(chunks := p0.chunks + MultiChunks(geo)[..i])
      invariant !multiChunk ==> descs == SingleDescs(geo)[..i] && offset == Sum(geo.planeSizes[..i]) && pool.Value() == p0
    {
      descs := descs + [PlaneDesc(geo.planes[i], offset, PlanePitch(geo, geo.planes[i]))];
      SumPrefix(geo.planeSizes, i);
      offset := offset + geo.planeSizes[i];
      if multiChunk {
        assert MultiChunks(geo)[i] == Chunk(offset, descs);
        pool.AddChunk(offset, descs);
        assert MultiChunks(geo)[..i + 1] == MultiChunks(geo)[..i] + [Chunk(offset, descs)];
        descs := [];
        offset := 0;
      } else {
        assert SingleDescs(geo)[..i + 1] == SingleDescs(geo)[..i] + [descs[i]];
      }
    }
    assert MultiChunks(geo)[..|geo.planes|] == MultiChunks(geo);
    assert SingleDescs(geo)[..|geo.planes|] == SingleDescs(geo);
    assert geo.planeSizes[..|geo.planes|] == geo.planeSizes;
    if !multiChunk {
      pool.AddChunk(offset, descs);
    }
  }

  /** sConfigureDecBufPool with the size it reports kept apart from the chunk offset: it
      returns the bytes of a whole buffer in both modes. */
  method ConfigureDecBufPool(pool: BufPool, geo: Geometry, multiChunk: bool) returns (size: int)
    requires geo.WellFormed()
    modifies pool
    ensures pool.Value() == Configured(old(pool.Value()), geo, multiChunk)
    ensures size == Sum(geo.planeSizes) == ChunkBytes(Layout(geo, multiChunk))
  {
    pool.SetFormat(PoolFormat(geo.width, geo.height, geo.fourCC));
    ghost var p0 := pool.Value();
    var descs: seq<PlaneDesc> := [];
    var offset := 0;
    size := 0;
    for i := 0 to |geo.planes|
      invariant size == Sum(geo.planeSizes[..i])
      invariant multiChunk ==> descs == [] && offset == 0 && pool.Value() == p0.(chunks := p0.chunks + MultiChunks(geo)[..i])
      invariant !multiChunk ==> descs == SingleDescs(geo)[..i] && offset == size && pool.Value() == p0
    {
      descs := descs + [PlaneDesc(geo.planes[i], offset, PlanePitch(geo, geo.planes[i]))];
      SumPrefix(geo.planeSizes, i);
      offset := offset + geo.planeSizes[i];
      size := size + geo.planeSizes[i];
      if multiChunk {
        assert MultiChunks(geo)[i] == Chunk(offset, descs);
        pool.AddChunk(offset, descs);
        assert MultiChunks(geo)[..i + 1] == MultiChunks(geo)[..i] + [Chunk(offset, descs)];
        descs := [];
        offset := 0;
      } else {
        assert SingleDescs(geo)[..i + 1] == SingleDescs(geo)[..i] + [descs[i]];
      }
    }
    assert MultiChunks(geo)[..|geo.planes|] == MultiChunks(geo);
    assert SingleDescs(geo)[..|geo.planes|] == SingleDescs(geo);
    assert geo.planeSizes[..|geo.planes|] == geo.planeSizes;
    if !multiChunk {
      pool.AddChunk(offset, descs);
    }
    LayoutBytes(geo, multiChunk);
  }

  /** The size the source reports in multi-chunk mode is 0 however large the planes are:
      with a luma plane of 8 bytes and a chroma plane of 4, the pool's chunks hold 12 bytes
      and the reported size is 0, below any positive size the library asks for. */
  lemma MultiChunkSizeLost()
    ensures var geo := Geometry(16, 16, 0, [PlaneY, PlaneUV], 16, 16, [8, 4], 12);
      SizeAsWritten(geo, true) == 0 < 12 == ChunkBytes(Layout(geo, true))
  {
    var geo := Geometry(16, 16, 0, [PlaneY, PlaneUV], 16, 16, [8, 4], 12);
    LayoutBytes(geo, true);
    assert [8, 4][..1] == [8];
    assert [8][..0] == [];
  }

  /** The fields of ResChgParam the callback uses: whether a decoder exists, bPoolIsInit,
      the pool, bAddHDRMetaData, and the buffers handed to the decoder so far. */
  datatype HandlerState = HandlerState(
    hasDecoder: bool, poolIsInit: bool, pool: PoolState, addHDRMetaData: bool,
    handed: seq<HandedBuffer>)

  /** The result of one call: the new state, the code returned and the buffer size shown
      in the stream information (none when the call returns before showing it). */
  datatype FoundOutcome = FoundOutcome(state: HandlerState, err: DecError, shownSize: Option<int>)

  /** The first `n` buffers of a pool, filled and tagged as the callback hands them over. */
  function Handed(n: nat, hdrMeta: bool): (hs: seq<HandedBuffer>)
    ensures |hs| == n
  {
    seq(n, i requires 0 <= i < n => HandedBuffer(i, FILL_BYTE, hdrMeta))
  }

  /** sResolutionFound on the callback's state; `initOk` is what the allocator does when the
      pool is initialised. */
  function Found(st: HandlerState, bufferNumber: int, geo: Geometry, multiChunk: bool, initOk: bool): (o: FoundOutcome)
    requires geo.WellFormed()
    ensures o.state.hasDecoder == st.hasDecoder && o.state.addHDRMetaData == st.addHDRMetaData
    // with a decoder, the call succeeds exactly when the pool ends up initialised
    ensures st.hasDecoder ==> (o.err == AlSuccess <==> o.state.poolIsInit)
    // buffers once handed over stay handed over, and an initialised pool is never redone
    ensures |st.handed| <= |o.state.handed| && o.state.handed[..|st.handed|] == st.handed
    ensures st.poolIsInit ==> o.state == st
  {
    if !st.hasDecoder then FoundOutcome(st, AlError, None)
    else if st.poolIsInit then FoundOutcome(st, AlSuccess, Some(geo.frameSize))
    else
      var p1 := Configured(st.pool, geo, multiChunk);
      var size := Some(SizeAsWritten(geo, multiChunk));
      var numBuf := bufferNumber + BUFFERS_HELD_BY_NEXT_COMPONENT;
      if !initOk then FoundOutcome(st.(pool := p1), AlErrNoMemory, size)
      else
        var count := if numBuf < 0 then 0 else numBuf;
        FoundOutcome(
          st.(poolIsInit := true, pool := p1.(numBuffers := count, taken := count),
              handed := st.handed + Handed(count, st.addHDRMetaData)),
          AlSuccess, size)
  }

  /** Without a decoder the callback fails and changes nothing. */
  lemma FoundWithoutDecoder(st: HandlerState, bufferNumber: int, geo: Geometry, multiChunk: bool, initOk: bool)
    requires geo.WellFormed() && !st.hasDecoder
    ensures Found(st, bufferNumber, geo, multiChunk, initOk) == FoundOutcome(st, AlError, None)
  {
  }

  /** The first successful call initialises the pool with one buffer more than the decoder
      asks for and hands every one of them, each once, to the decoder; the pool has no free
      buffer left. */
  lemma FoundHandsEveryBuffer(st: HandlerState, bufferNumber: nat, geo: Geometry, multiChunk: bool)
    requires geo.WellFormed() && st.hasDecoder && !st.poolIsInit
    ensures var o := Found(st, bufferNumber, geo, multiChunk, true);
      var added := o.state.handed[|st.handed|..];
      && o.err == AlSuccess && o.state.poolIsInit
      && o.state.handed[..|st.handed|] == st.handed
      && |added| == bufferNumber + 1 == o.state.pool.numBuffers == o.state.pool.taken
      && (forall i, j :: 0 <= i < j < |added| ==> added[i].id != added[j].id)
      && (forall i :: 0 <= i < |added| ==> added[i].id < o.state.pool.numBuffers)
      && (forall i :: 0 <= i < |added| ==> added[i].fill == FILL_BYTE && added[i].hdrMeta == st.addHDRMetaData)
  {
    var o := Found(st, bufferNumber, geo, multiChunk, true);
    assert o.state.handed[|st.handed|..] == Handed(bufferNumber + 1, st.addHDRMetaData);
  }

  /** When the allocator fails the callback reports a lack of memory, leaves bPoolIsInit
      unset and hands nothing over; the layout it added stays in the pool, so a later call
      lays the pool out again on top of it. */
  lemma FoundRetriesAfterNoMemory(st: HandlerState, bufferNumber: int, geo: Geometry, multiChunk: bool)
    requires geo.WellFormed() && st.hasDecoder && !st.poolIsInit
    ensures var o := Found(st, bufferNumber, geo, multiChunk, false);
      && o.err == AlErrNoMemory && !o.state.poolIsInit && o.state.handed == st.handed
      && var o2 := Found(o.state, bufferNumber, geo, multiChunk, true);
         o2.state.pool.chunks == st.pool.chunks + Layout(geo, multiChunk) + Layout(geo, multiChunk)
  {
  }

  /** Once the pool is initialised, a later call (a resolution change) succeeds and changes
      nothing, whatever the new geometry and the allocator do. */
  lemma FoundOnlyOnce(st: HandlerState, n1: int, geo1: Geometry, n2: int, geo2: Geometry,
                      multiChunk: bool, ok2: bool)
    requires geo1.WellFormed() && geo2.WellFormed() && st.hasDecoder
    ensures var o1 := Found(st, n1, geo1, multiChunk, true);
      var o2 := Found(o1.state, n2, geo2, multiChunk, ok2);
      o2 == FoundOutcome(o1.state, AlSuccess, Some(geo2.frameSize))
  {
  }

  /** The size shown is the library's frame size once the pool is initialised. On the first
      call it is what sConfigureDecBufPool returns: the bytes of a whole buffer in
      single-chunk mode, but 0 in multi-chunk mode, however many bytes the pool's chunks
      hold (see MultiChunkSizeLost). */
  lemma FoundShownSize(st: HandlerState, bufferNumber: int, geo: Geometry, multiChunk: bool, initOk: bool)
    requires geo.WellFormed() && st.hasDecoder
    ensures var o := Found(st, bufferNumber, geo, multiChunk, initOk);
      o.shownSize == Some(if st.poolIsInit then geo.frameSize
                          else if multiChunk then 0
                          else ChunkBytes(Layout(geo, false)))
  {
    LayoutBytes(geo, false);
  }

  /** ResChgParam. */
  class ResolutionHandler {
    var hasDecoder: bool
    var poolIsInit: bool
    const pool: BufPool
    var addHDRMetaData: bool
    var handed: seq<HandedBuffer>

    function Value(): HandlerState
      reads this, pool
    {
      HandlerState(hasDecoder, poolIsInit, pool.Value(), addHDRMetaData, handed)
    }

    /** main's set-up: the pool not initialised, HDR metadata when an HDR file is written. */
    constructor (hasDecoder: bool, addHDRMetaData: bool)
      ensures Value() == HandlerState(hasDecoder, false, PoolState(None, [], 0, 0), addHDRMetaData, [])
      ensures fresh(pool)
    {
      this.hasDecoder := hasDecoder;
      poolIsInit := false;
      pool := new BufPool();
      this.addHDRMetaData := addHDRMetaData;
      handed := [];
    }

    /** sResolutionFound: the size it shows, with the pool configured on the first call by
        sConfigureDecBufPool as written. */
    method ResolutionFound(bufferNumber: int, geo: Geometry, multiChunk: bool, initOk: bool)
      returns (err: DecError, shownSize: Option<int>)
      requires geo.WellFormed() && pool.Value().Valid()
      modifies this, pool
      ensures var o := Found(old(Value()), bufferNumber, geo, multiChunk, initOk);
        Value() == o.state && err == o.err && shownSize == o.shownSize
    {
      if !hasDecoder {
        return AlError, None;
      }
      ghost var s0 := Value();
      var bufferSize: int;
      if poolIsInit {
        bufferSize := geo.frameSize;
      } else {
        bufferSize := ConfigureDecBufPoolAsWritten(pool, geo, multiChunk);
      }
      shownSize := Some(bufferSize);
      if poolIsInit {
        return AlSuccess, shownSize;
      }
      assert pool.Value() == Configured(s0.pool, geo, multiChunk);
      var numBuf := bufferNumber + BUFFERS_HELD_BY_NEXT_COMPONENT;
      var ok := pool.Init(numBuf, initOk);
      if !ok {
        return AlErrNoMemory, shownSize;
      }
      poolIsInit := true;
      ghost var h0 := handed;
      ghost var p1 := pool.Value();
      var i := 0;
      while i < numBuf
        invariant 0 <= i <= (if numBuf < 0 then 0 else numBuf)
        invariant pool.Value() == p1.(taken := i)
        invariant handed == h0 + Handed(i, addHDRMetaData)
        invariant hasDecoder && poolIsInit && addHDRMetaData == s0.addHDRMetaData
      {
        var b := pool.GetBuffer();
        assert b.Some?;
        assert Handed(i + 1, addHDRMetaData) == Handed(i, addHDRMetaData) + [HandedBuffer(b.value, FILL_BYTE, addHDRMetaData)];
        handed := handed + [HandedBuffer(b.value, FILL_BYTE, addHDRMetaData)];
        i := i + 1;
      }
      assert i == (if numBuf < 0 then 0 else numBuf);
      err := AlSuccess;
    }
  }
}
