/** The display callback of the decoder harness (exe_decoder/main.cpp, struct Display): for
    every picture the decoder hands out it decides whether decoding is over, counts
    concealed pictures, resolves the output bit depth, calls the output writer registered
    for the picture's storage mode and counts the pictures of the main storage mode. */
module Display {
  import opened Common

  /** The frame error of a picture, as far as Display::Process tells them apart:
      AL_SUCCESS, the concealment warning, any other warning, and an error code (the ones
      AL_IS_ERROR_CODE holds for). */
  datatype FrameError = Success | WarnConcealDetect | OtherWarning | ErrorCode(code: int)
  {
    predicate IsError() { ErrorCode? }
  }

  /** The fields of AL_TInfoDecode that Display::Process reads. */
  datatype FrameInfo = FrameInfo(bitDepthY: int, bitDepthC: int, storageMode: int)

  /** A call of the writer registered for a storage mode (ProcessOutput), with the bit depth
      it is asked to write and the picture count when it was called. */
  datatype WriterCall = WriterCall(storageMode: int, bdOut: int, frameNumber: nat)

  /** One call of the display callback: whether a picture buffer and a picture description
      were passed (a null pointer is `false` / None), the picture's frame error and the
      decoder's maximum bit depth (AL_Decoder_GetMaxBD). */
  datatype Event = Event(hasFrame: bool, info: Option<FrameInfo>, err: FrameError, maxBitDepth: int)
  {
    /** The source dereferences the picture whenever the description is given. */
    predicate WellFormed() { info.Some? ==> hasFrame }
  }

  /** isEOS: neither a picture nor a description. */
  predicate IsEOS(ev: Event) { !ev.hasFrame && ev.info.None? }

  /** isReleaseFrame: a picture without a description. */
  predicate IsReleaseFrame(ev: Event) { ev.hasFrame && ev.info.None? }

  /** The event ends decoding: an error or the end of the stream. */
  predicate Ends(ev: Event) { ev.err.IsError() || IsEOS(ev) }

  /** The event reaches the writer stage with a description of the picture. */
  predicate Shown(ev: Event) { !Ends(ev) && !IsReleaseFrame(ev) }

  /** The event is a shown picture of the main storage mode, the only ones counted. */
  predicate Counted(ev: Event, mainMode: int)
  {
    Shown(ev) && ev.info.value.storageMode == mainMode
  }

  const FRAME_COUNT_MODULUS: int := 0x1_0000_0000

  /** The fields of a Display: the storage modes that have a writer, the main storage mode,
      the output bit depth (0: the picture's largest, -1: the decoder's maximum), the
      unsigned counters NumFrames, MaxFrames and FirstFrame, the count of concealed pictures,
      whether the exit event is set, the writer calls made and the number of pictures handed
      back to the decoder (AL_Decoder_PutDisplayPicture). */
  datatype DisplayState = DisplayState(
    writers: set<int>, mainMode: int, bitDepth: int,
    numFrames: nat, maxFrames: nat, firstFrame: nat,
    numFrameConceal: int, exitMain: bool, calls: seq<WriterCall>, putBack: nat)
  {
    /** The three counters are unsigned ints. */
    predicate Valid()
    {
      numFrames < FRAME_COUNT_MODULUS && maxFrames <= UINT_MAX && firstFrame <= UINT_MAX
    }
  }

  /** The output bit depth Display::Process settles on: 0 resolves to the larger of the
      picture's luma and chroma depths, -1 to the decoder's maximum, anything else stays. */
  function ResolveBitDepth(current: int, info: FrameInfo, maxBitDepth: int): (bd: int)
    ensures current != 0 && current != -1 ==> bd == current
    ensures current == 0 ==> bd == info.bitDepthY || bd == info.bitDepthC
    ensures current == 0 ==> bd >= info.bitDepthY && bd >= info.bitDepthC
    ensures current == -1 ==> bd == maxBitDepth
  {
    if current == 0 then Max(info.bitDepthY, info.bitDepthC)
    else if current == -1 then maxBitDepth
    else current
  }

  /** Display::Process followed by Display::ProcessFrame, on the display's fields. */
  function Step(st: DisplayState, ev: Event): (r: DisplayState)
    requires st.Valid() && ev.WellFormed()
    ensures r.Valid()
    // the configuration is never changed, and the exit event is never cleared
    ensures r.writers == st.writers && r.mainMode == st.mainMode
    ensures r.maxFrames == st.maxFrames && r.firstFrame == st.firstFrame
    ensures st.exitMain ==> r.exitMain
    // an error or the end of the stream sets the exit event and changes nothing else
    ensures Ends(ev) ==> r == st.(exitMain := true)
    // the concealment warning is counted, once, for every picture that does not end decoding
    ensures !Ends(ev) ==>
      r.numFrameConceal == st.numFrameConceal + (if ev.err == WarnConcealDetect then 1 else 0)
    // a picture released without a description is neither written nor counted
    ensures IsReleaseFrame(ev) && !Ends(ev) ==> r == st.(numFrameConceal := r.numFrameConceal)
    // the bit depth is resolved once and then kept
    ensures Shown(ev) ==> r.bitDepth == ResolveBitDepth(st.bitDepth, ev.info.value, ev.maxBitDepth)
    ensures !Shown(ev) ==> r.bitDepth == st.bitDepth
    // a writer is called only when one exists for the mode and FirstFrame has been reached
    ensures r.calls == st.calls + (
      if Shown(ev) && ev.info.value.storageMode in st.writers && st.numFrames >= st.firstFrame
      then [WriterCall(ev.info.value.storageMode, r.bitDepth, st.numFrames)]
      else [])
    // only pictures of the main storage mode are counted (NumFrames is an unsigned int) and
    // handed back; the exit event is set once the count passes MaxFrames
    ensures Counted(ev, st.mainMode) ==>
      && r.numFrames == (st.numFrames + 1) % FRAME_COUNT_MODULUS
      && r.putBack == st.putBack + 1
      && r.exitMain == (st.exitMain || r.numFrames > st.maxFrames)
    ensures !Counted(ev, st.mainMode) && !Ends(ev) ==>
      r.numFrames == st.numFrames && r.putBack == st.putBack && r.exitMain == st.exitMain
  {
    if Ends(ev) then st.(exitMain := true)
    else
      var conceal := if ev.err == WarnConcealDetect then st.numFrameConceal + 1 else st.numFrameConceal;
      var s1 := st.(numFrameConceal := conceal);
      if IsReleaseFrame(ev) then s1 else Show(s1, ev.info.value, ev.maxBitDepth)
  }

  /** The part of Display::Process for a picture that has a description: the bit depth is
      resolved, the writer is called and a picture of the main storage mode is counted. */
  function Show(st: DisplayState, info: FrameInfo, maxBitDepth: int): (r: DisplayState)
    requires st.Valid()
    ensures r.Valid()
  {
    var bd := ResolveBitDepth(st.bitDepth, info, maxBitDepth);
    var s2 := st.(bitDepth := bd);
    var s3 := if info.storageMode in st.writers && st.numFrames >= st.firstFrame
              then s2.(calls := s2.calls + [WriterCall(info.storageMode, bd, st.numFrames)])
              else s2;
    if info.storageMode == st.mainMode then
      var n := (st.numFrames + 1) % FRAME_COUNT_MODULUS;
      s3.(putBack := s3.putBack + 1, numFrames := n, exitMain := s3.exitMain || n > st.maxFrames)
    else s3
  }

  /** A sequence of callbacks, one after the other. */
  function Run(st: DisplayState, evs: seq<Event>): (r: DisplayState)
    requires st.Valid() && forall i :: 0 <= i < |evs| ==> evs[i].WellFormed()
    ensures r.Valid()
    decreases |evs|
  {
    if evs == [] then st else Run(Step(st, evs[0]), evs[1..])
  }

  /** The number of events that are counted pictures of the main storage mode. */
  function CountedIn(evs: seq<Event>, mainMode: int): (n: nat)
    ensures n <= |evs|
  {
    if evs == [] then 0 else (if Counted(evs[0], mainMode) then 1 else 0) + CountedIn(evs[1..], mainMode)
  }

  /** After a run, NumFrames has grown by the number of counted pictures, modulo 2^32: the
      count does not depend on the exit event, which the callback never looks at. */
  lemma {:induction false} RunCountsFrames(st: DisplayState, evs: seq<Event>)
    requires st.Valid() && forall i :: 0 <= i < |evs| ==> evs[i].WellFormed()
    ensures Run(st, evs).numFrames == (st.numFrames + CountedIn(evs, st.mainMode)) % FRAME_COUNT_MODULUS
    ensures Run(st, evs).putBack == st.putBack + CountedIn(evs, st.mainMode)
    decreases |evs|
  {
    if evs != [] {
      var s1 := Step(st, evs[0]);
      StepCountsFrame(st, evs[0]);
      RunCountsFrames(s1, evs[1..]);
      assert Run(st, evs) == Run(s1, evs[1..]);
      var c := if Counted(evs[0], st.mainMode) then 1 else 0;
      var rest := CountedIn(evs[1..], st.mainMode);
      assert CountedIn(evs, st.mainMode) == c + rest;
      ModAddChain(st.numFrames, c, rest, s1.numFrames, Run(st, evs).numFrames);
    } else {
      DivUnique(st.numFrames, FRAME_COUNT_MODULUS, 0);
    }
  }

  /** One callback adds one to NumFrames, modulo 2^32, and to the pictures handed back
      exactly when it counts a picture. */
  lemma StepCountsFrame(st: DisplayState, ev: Event)
    requires st.Valid() && ev.WellFormed()
    ensures Step(st, ev).numFrames == (st.numFrames + if Counted(ev, st.mainMode) then 1 else 0) % FRAME_COUNT_MODULUS
    ensures Step(st, ev).putBack == st.putBack + if Counted(ev, st.mainMode) then 1 else 0
  {
    if !Counted(ev, st.mainMode) {
      assert Step(st, ev).numFrames == st.numFrames;
    }
  }

  /** Counting b and then c frames counts b + c frames. */
  lemma ModAddChain(a: nat, b: nat, c: nat, x: int, y: int)
    requires x == (a + b) % FRAME_COUNT_MODULUS && y == (x + c) % FRAME_COUNT_MODULUS
    ensures y == (a + (b + c)) % FRAME_COUNT_MODULUS
  {
    ModAddAssoc(a, b, c);
  }

  /** ((a + b) % M + c) % M == (a + b + c) % M for the frame counter's modulus. */
  lemma ModAddAssoc(a: nat, b: nat, c: nat)
    ensures ((a + b) % FRAME_COUNT_MODULUS + c) % FRAME_COUNT_MODULUS
      == (a + b + c) % FRAME_COUNT_MODULUS
  {
    var m := FRAME_COUNT_MODULUS;
    var q := (a + b) / m;
    assert a + b == q * m + (a + b) % m;
    assert (a + b + c) == q * m + ((a + b) % m + c);
    ModMultipleShift(q, (a + b) % m + c);
  }

  /** Adding a multiple of the modulus does not change the remainder. */
  lemma ModMultipleShift(q: nat, x: nat)
    ensures (q * FRAME_COUNT_MODULUS + x) % FRAME_COUNT_MODULUS == x % FRAME_COUNT_MODULUS
  {
    var m := FRAME_COUNT_MODULUS;
    var k := x / m;
    assert x == k * m + x % m;
    assert q * m + x == (q + k) * m + x % m;
    DivUnique(q * m + x, m, q + k);
  }

  /** Each callback calls at most one writer, and calls already made stay as they are. */
  lemma {:induction false} RunCallsGrow(st: DisplayState, evs: seq<Event>)
    requires st.Valid() && forall i :: 0 <= i < |evs| ==> evs[i].WellFormed()
    ensures |st.calls| <= |Run(st, evs).calls| <= |st.calls| + |evs|
    ensures Run(st, evs).calls[..|st.calls|] == st.calls
    decreases |evs|
  {
    if evs != [] {
      var s1 := Step(st, evs[0]);
      RunCallsGrow(s1, evs[1..]);
      assert s1.calls[..|st.calls|] == st.calls;
    }
  }

  /** Every writer call made so far is for a storage mode that has a writer, and for a
      picture counted at or after FirstFrame. */
  predicate CallsAllowed(st: DisplayState)
  {
    forall j :: 0 <= j < |st.calls| ==>
      st.calls[j].storageMode in st.writers && st.calls[j].frameNumber >= st.firstFrame
  }

  /** A callback keeps CallsAllowed. */
  lemma StepCallsAllowed(st: DisplayState, ev: Event)
    requires st.Valid() && ev.WellFormed() && CallsAllowed(st)
    ensures CallsAllowed(Step(st, ev))
  {
    var r := Step(st, ev);
    forall j | 0 <= j < |r.calls|
      ensures r.calls[j].storageMode in r.writers && r.calls[j].frameNumber >= r.firstFrame
    {
      if j >= |st.calls| {
        assert Shown(ev);
      }
    }
  }

  /** A run keeps CallsAllowed. */
  lemma {:induction false} RunCallsAllowed(st: DisplayState, evs: seq<Event>)
    requires st.Valid() && forall i :: 0 <= i < |evs| ==> evs[i].WellFormed()
    requires CallsAllowed(st)
    ensures CallsAllowed(Run(st, evs))
    decreases |evs|
  {
    if evs != [] {
      StepCallsAllowed(st, evs[0]);
      RunCallsAllowed(Step(st, evs[0]), evs[1..]);
    }
  }

  /** With MaxFrames at its default UINT_MAX the count can never pass it: the exit event is
      set by the end of a run exactly when it was set before or some callback reported an
      error or the end of the stream. */
  lemma {:induction false} RunExitUnlimited(st: DisplayState, evs: seq<Event>)
    requires st.Valid() && forall i :: 0 <= i < |evs| ==> evs[i].WellFormed()
    requires st.maxFrames == UINT_MAX
    ensures Run(st, evs).exitMain <==> st.exitMain || exists i :: 0 <= i < |evs| && Ends(evs[i])
    decreases |evs|
  {
    if evs != [] {
      var s1 := Step(st, evs[0]);
      assert s1.exitMain <==> st.exitMain || Ends(evs[0]);
      RunExitUnlimited(s1, evs[1..]);
      if exists i :: 0 <= i < |evs| && Ends(evs[i]) {
        var i :| 0 <= i < |evs| && Ends(evs[i]);
        if i > 0 {
          assert Ends(evs[1..][i - 1]);
        }
      }
      if exists i :: 0 <= i < |evs[1..]| && Ends(evs[1..][i]) {
        var i :| 0 <= i < |evs[1..]| && Ends(evs[1..][i]);
        assert Ends(evs[i + 1]);
      }
    }
  }

  /** struct Display. */
  class Display {
    var writers: set<int>
    var mainMode: int
    var bitDepth: int
    var numFrames: nat
    var maxFrames: nat
    var firstFrame: nat
    var numFrameConceal: int
    var exitMain: bool
    var calls: seq<WriterCall>
    var putBack: nat

    function Value(): DisplayState
      reads this
    {
      DisplayState(writers, mainMode, bitDepth, numFrames, maxFrames, firstFrame,
                   numFrameConceal, exitMain, calls, putBack)
    }

    /** The member initialisers: no writer, iBitDepth 8, NumFrames 0, MaxFrames UINT_MAX,
        FirstFrame 0, no concealed picture, and the exit event created unset. The main
        storage mode is the caller's, which main assigns right after construction. */
    constructor (mainMode: int)
      ensures Value() == DisplayState({}, mainMode, 8, 0, UINT_MAX, 0, 0, false, [], 0)
      ensures Value().Valid()
    {
      writers, this.mainMode, bitDepth := {}, mainMode, 8;
      numFrames, maxFrames, firstFrame := 0, UINT_MAX, 0;
      numFrameConceal, exitMain, calls, putBack := 0, false, [], 0;
    }

    /** AddOutputWriter: registers (or replaces) the writer of a storage mode. */
    method AddOutputWriter(storageMode: int)
      modifies this
      ensures Value() == old(Value()).(writers := old(writers) + {storageMode})
    {
      writers := writers + {storageMode};
    }

    /** Display::ProcessFrame: the writer of the picture's storage mode is called, if there
        is one and NumFrames has reached FirstFrame. */
    method ProcessFrame(info: FrameInfo, bdOut: int)
      modifies this
      ensures Value() == old(Value()).(calls := old(calls) + (
        if info.storageMode in writers && numFrames >= firstFrame
        then [WriterCall(info.storageMode, bdOut, numFrames)] else []))
    {
      if info.storageMode in writers && numFrames >= firstFrame {
        calls := calls + [WriterCall(info.storageMode, bdOut, numFrames)];
      }
    }

    /** Display::Process: the callback for one picture. */
    method Process(ev: Event)
      requires Value().Valid() && ev.WellFormed()
      modifies this
      ensures Value() == Step(old(Value()), ev)
    {
      if ev.err.IsError() || IsEOS(ev) {
        exitMain := true;
        return;
      }
      if ev.err == WarnConcealDetect {
        numFrameConceal := numFrameConceal + 1;
      }
      if IsReleaseFrame(ev) {
        return;
      }
      ShowPicture(ev.info.value, ev.maxBitDepth);
    }

    /** The tail of Display::Process for a picture with a description. */
    method ShowPicture(info: FrameInfo, maxBitDepth: int)
      requires Value().Valid()
      modifies this
      ensures Value() == Show(old(Value()), info, maxBitDepth)
    {
      if bitDepth == 0 {
        bitDepth := Max(info.bitDepthY, info.bitDepthC);
      } else if bitDepth == -1 {
        bitDepth := maxBitDepth;
      }
      ProcessFrame(info, bitDepth);
      if info.storageMode == mainMode {
        putBack := putBack + 1;
        numFrames := (numFrames + 1) % FRAME_COUNT_MODULUS;
        if numFrames > maxFrames {
          exitMain := true;
        }
      }
    }
  }
}
