/** The small helpers of the decoder harness (exe_decoder/main.cpp): the hex dump of SEI
    payloads, the split of the command line into channels, the printable forms of a FourCC,
    a sequence mode and an error code, and clip_it. */
module Helpers {
  import opened Common
  import opened Hex

  /** uint8_t. */
  newtype Byte = b: int | 0 <= b < 256

  /** The two lower-case hex digits printHexdump writes for a byte (std::hex with
      setfill('0') and setw(2)). */
  function Cell(b: Byte): (s: string)
    ensures |s| == 2 && IsHex(s) && HexValue(s) == b as nat
  {
    assert Pow16(2) == 256;
    HexFixed(b as nat, 2, false)
  }

  /** The separator printed after the k-th byte when more follow: a new line after every
      eighth byte, a space otherwise. */
  function Sep(k: nat): char
  {
    if k % 8 == 0 then '\n' else ' '
  }

  /** The text printHexdump writes for a run of bytes. */
  function Hexdump(bs: seq<Byte>): (s: string)
    ensures |s| == if bs == [] then 0 else 3 * |bs| - 1
  {
    if bs == [] then ""
    else if |bs| == 1 then Cell(bs[0])
    else Hexdump(bs[..|bs| - 1]) + [Sep(|bs| - 1)] + Cell(bs[|bs| - 1])
  }

  /** The layout of a dump (three characters per byte less the last separator): byte i is
      at 3 * i, and the character before it (for i > 0) is its separator. */
  lemma {:induction false} HexdumpLayout(bs: seq<Byte>)
    ensures forall i :: 0 <= i < |bs| ==> Hexdump(bs)[3 * i..3 * i + 2] == Cell(bs[i])
    ensures forall i :: 0 < i < |bs| ==> Hexdump(bs)[3 * i - 1] == Sep(i)
  {
    var n := |bs|;
    if n > 1 {
      var p := bs[..n - 1];
      HexdumpLayout(p);
      var t := Hexdump(bs);
      assert t == Hexdump(p) + [Sep(n - 1)] + Cell(bs[n - 1]);
      forall i | 0 <= i < n
        ensures t[3 * i..3 * i + 2] == Cell(bs[i])
      {
        if i < n - 1 {
          assert t[3 * i..3 * i + 2] == Hexdump(p)[3 * i..3 * i + 2];
          assert p[i] == bs[i];
        } else {
          assert t[3 * i..3 * i + 2] == Cell(bs[n - 1]);
        }
      }
      forall i | 0 < i < n
        ensures t[3 * i - 1] == Sep(i)
      {
        if i < n - 1 {
          assert t[3 * i - 1] == Hexdump(p)[3 * i - 1];
        }
      }
    }
  }

  /** Reads the bytes back from a dump: the two digits at every third position. */
  function ReadHexdump(text: string): (bs: seq<Byte>)
    requires forall i :: 0 <= i < (|text| + 1) / 3 ==> 3 * i + 2 <= |text| && IsHex(text[3 * i..3 * i + 2])
    ensures |bs| == (|text| + 1) / 3
  {
    seq((|text| + 1) / 3, i requires 0 <= i < (|text| + 1) / 3
                           && 3 * i + 2 <= |text| && IsHex(text[3 * i..3 * i + 2]) =>
      assert HexValue(text[3 * i..3 * i + 2]) < Pow16(2) == 256;
      HexValue(text[3 * i..3 * i + 2]) as Byte)
  }

  /** A dump can be read back into the bytes it was made of. */
  lemma HexdumpRoundTrip(bs: seq<Byte>)
    ensures var t := Hexdump(bs);
      (forall i :: 0 <= i < (|t| + 1) / 3 ==> 3 * i + 2 <= |t| && IsHex(t[3 * i..3 * i + 2]))
      && ReadHexdump(t) == bs
  {
    HexdumpLayout(bs);
    var t := Hexdump(bs);
    assert (|t| + 1) / 3 == |bs|;
    forall i | 0 <= i < |bs|
      ensures IsHex(t[3 * i..3 * i + 2]) && HexValue(t[3 * i..3 * i + 2]) == bs[i] as nat
    {
      assert t[3 * i..3 * i + 2] == Cell(bs[i]);
    }
  }

  /** printHexdump: the first `size` bytes of `data`, one after the other; nothing when
      `size` is not positive. */
  method PrintHexdump(data: seq<Byte>, size: int) returns (out: string)
    requires size <= |data|
    ensures out == Hexdump(data[..if size < 0 then 0 else size])
  {
    var n := if size < 0 then 0 else size;
    var column := 0;
    var toPrint := size;
    out := "";
    while toPrint > 0
      invariant column == size - toPrint || (size < 0 && column == 0 && toPrint == size)
      invariant 0 <= column <= n && (toPrint > 0 ==> column == n - toPrint)
      invariant toPrint <= 0 ==> column == n
      invariant out == Hexdump(data[..column]) + (if 0 < column < n then [Sep(column)] else [])
    {
      var k := size - toPrint;
      out := out + Cell(data[k]);
      assert data[..k + 1][..k] == data[..k];
      toPrint := toPrint - 1;
      column := column + 1;
      if toPrint > 0 {
        if column % 8 == 0 {
          out := out + ['\n'];
        } else {
          out := out + [' '];
        }
      }
    }
  }

  /** MAX_CHANNELS. */
  const MAX_CHANNELS: int := 1

  const NEXT_CHANNEL: string := "--next-chan"

  /** The index of the first "--next-chan" among the arguments, if any. */
  function FirstNextChannel(argv: seq<string>): (r: Option<nat>)
    ensures r.Some? ==>
      && r.value < |argv| && argv[r.value] == NEXT_CHANNEL
      && forall i :: 0 <= i < r.value ==> argv[i] != NEXT_CHANNEL
    ensures r.None? ==> forall i :: 0 <= i < |argv| ==> argv[i] != NEXT_CHANNEL
  {
    if argv == [] then None
    else if argv[0] == NEXT_CHANNEL then Some(0)
    else match FirstNextChannel(argv[1..])
      case None => None
      case Some(k) => Some(k + 1)
  }

  /** GetChannelsArgv: the arguments of each channel are pushed onto that channel's list.
      With MAX_CHANNELS at 1 every argument goes to channel 0 and the index of the last
      channel is 0, unless an argument is "--next-chan": the split then fails, after the
      arguments before it were pushed. */
  method GetChannelsArgv(argvChannels: array<seq<string>>, argv: seq<string>) returns (r: Result<int, string>)
    requires argvChannels.Length == MAX_CHANNELS
    modifies argvChannels
    ensures FirstNextChannel(argv).None? ==> r == Ok(0) && argvChannels[0] == old(argvChannels[0]) + argv
    ensures FirstNextChannel(argv).Some? ==>
      r == Err("Too many channels") && argvChannels[0] == old(argvChannels[0]) + argv[..FirstNextChannel(argv).value]
  {
    var curChan := 0;
    for i := 0 to |argv|
      invariant curChan == 0
      invariant forall j :: 0 <= j < i ==> argv[j] != NEXT_CHANNEL
      invariant argvChannels[0] == old(argvChannels[0]) + argv[..i]
    {
      if argv[i] == NEXT_CHANNEL {
        curChan := curChan + 1;
        if curChan >= MAX_CHANNELS {
          FirstNextChannelAt(argv, i);
          return Err("Too many channels");
        }
      }
      argvChannels[curChan] := argvChannels[curChan] + [argv[i]];
      assert argv[..i + 1] == argv[..i] + [argv[i]];
    }
    assert argv[..|argv|] == argv;
    return Ok(curChan);
  }

  /** The first "--next-chan" is the one at i when none comes before it. */
  lemma FirstNextChannelAt(argv: seq<string>, i: nat)
    requires i < |argv| && argv[i] == NEXT_CHANNEL
    requires forall j :: 0 <= j < i ==> argv[j] != NEXT_CHANNEL
    ensures FirstNextChannel(argv) == Some(i)
  {
  }

  const FOURCC_LIMIT: int := 0x1_0000_0000

  /** A byte as the char static_cast<char> prints. */
  function ByteChar(b: int): (c: char)
    requires 0 <= b < 256
    ensures c as int == b
  {
    b as char
  }

  /** FourCCToString: the four bytes of a FourCC, least significant first. The masks and
      shifts of the source are written as remainders and quotients by 256. */
  function FourCCToString(code: int): (s: string)
    requires 0 <= code < FOURCC_LIMIT
    ensures |s| == 4 && forall i :: 0 <= i < 4 ==> s[i] as int < 256
  {
    [ByteChar(code % 256), ByteChar(code / 0x100 % 256), ByteChar(code / 0x1_0000 % 256),
     ByteChar(code / 0x100_0000)]
  }

  /** The FourCC four characters of at most 8 bits spell, the first the least significant. */
  function FourCCOf(s: string): (code: int)
    requires |s| == 4 && forall i :: 0 <= i < 4 ==> s[i] as int < 256
    ensures 0 <= code < FOURCC_LIMIT
  {
    s[0] as int + 0x100 * (s[1] as int + 0x100 * (s[2] as int + 0x100 * s[3] as int))
  }

  /** q * 256 + r is split back into q and r. */
  lemma DivMod256(x: int, q: int, r: int)
    requires 0 <= r < 256 && x == q * 256 + r
    ensures x / 256 == q && x % 256 == r
  {
    DivUnique(x, 256, q);
  }

  /** The string of a FourCC spells it. */
  lemma FourCCRoundTrip(code: int)
    requires 0 <= code < FOURCC_LIMIT
    ensures FourCCOf(FourCCToString(code)) == code
  {
    var q1 := code / 256;
    var q2 := q1 / 256;
    var q3 := q2 / 256;
    assert code == q1 * 256 + code % 256;
    assert q1 == q2 * 256 + q1 % 256;
    assert q2 == q3 * 256 + q2 % 256;
    DivMod256(code, q1, code % 256);
    assert code / 0x1_0000 == q2 by { DivUnique(code, 0x1_0000, q2); }
    assert code / 0x100_0000 == q3 by { DivUnique(code, 0x100_0000, q3); }
  }

  /** Any four 8-bit characters are the string of the FourCC they spell. */
  lemma FourCCStringRoundTrip(s: string)
    requires |s| == 4 && forall i :: 0 <= i < 4 ==> s[i] as int < 256
    ensures FourCCToString(FourCCOf(s)) == s
  {
    var a, b, c, d := s[0] as int, s[1] as int, s[2] as int, s[3] as int;
    var code := FourCCOf(s);
    var q1 := b + 0x100 * (c + 0x100 * d);
    var q2 := c + 0x100 * d;
    DivMod256(code, q1, a);
    DivMod256(q1, q2, b);
    DivMod256(q2, d, c);
    assert code / 0x1_0000 == q2 by { DivUnique(code, 0x1_0000, q2); }
    assert code / 0x100_0000 == d by { DivUnique(code, 0x100_0000, d); }
    assert FourCCToString(code) == [s[0], s[1], s[2], s[3]];
  }

  /** SequencePictureToString. */
  function SequencePictureToString(m: SequenceMode): (s: string)
  {
    match m
    case SmUnknown => "unknown"
    case SmProgressive => "progressive"
    case SmInterlaced => "interlaced"
    case SmMaxEnum => "max enum"
  }

  /** Every sequence mode has a name of its own. */
  lemma SequencePictureNamesDistinct(m1: SequenceMode, m2: SequenceMode)
    ensures SequencePictureToString(m1) == SequencePictureToString(m2) <==> m1 == m2
  {
    if m1 != m2 {
      var s1, s2 := SequencePictureToString(m1), SequencePictureToString(m2);
      assert |s1| != |s2|;
    }
  }

  /** The error codes ToString names; every other code is `OtherError`. */
  datatype ErrorCode =
    | ChanCreationNoChannelAvailable
    | ChanCreationResourceUnavailable
    | ChanCreationNotEnoughCores
    | RequestMalformed
    | NoMemory
    | Success
    | OtherError(code: int)

  /** ToString: the message of an error code. */
  function ErrorMessage(e: ErrorCode): (s: string)
  {
    match e
    case ChanCreationNoChannelAvailable => "Channel not created, no channel available"
    case ChanCreationResourceUnavailable =>
      "Channel not created, processing power of the available cores insufficient"
    case ChanCreationNotEnoughCores => "Channel not created, couldn't spread the load on enough cores"
    case RequestMalformed => "Channel not created: request was malformed"
    case NoMemory => "Memory shortage detected (dma, embedded memory or virtual memory shortage)"
    case Success => "Success"
    case OtherError(_) => "Unknown error"
  }

  /** The message is "Unknown error" exactly for the codes ToString does not name. */
  lemma UnknownErrorMessage(e: ErrorCode)
    ensures ErrorMessage(e) == "Unknown error" <==> e.OtherError?
  {
    match e
    case OtherError(_) =>
    case _ =>
  }

  /** clip_it: the value brought into [min, max]; below min gives min, otherwise above max
      gives max. */
  function ClipIt(value: int, min: int, max: int): (r: int)
    ensures value < min ==> r == min
    ensures min <= value <= max ==> r == value
    ensures min <= value && max < value ==> r == max
  {
    if value < min then min
    else if value > max then max
    else value
  }

  /** With a non-empty range the result lies in it, is the point of the range nearest the
      value, and clipping again changes nothing. */
  lemma ClipItInRange(value: int, min: int, max: int)
    requires min <= max
    ensures var r := ClipIt(value, min, max);
      && min <= r <= max
      && (forall x :: min <= x <= max ==> Dist(value, r) <= Dist(value, x))
      && ClipIt(r, min, max) == r
  {
  }

  function Dist(a: int, b: int): nat
  {
    if a < b then b - a else a - b
  }

  /** clip_it is monotone in the value. */
  lemma ClipItMonotone(v1: int, v2: int, min: int, max: int)
    requires v1 <= v2 && min <= max
    ensures ClipIt(v1, min, max) <= ClipIt(v2, min, max)
  {
  }
}
