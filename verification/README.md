# Decoder harness core, modelled in Dafny

This project models the core of the command-line decoder harness of the VCU control
software (`exe_decoder/main.cpp`) and the HDR SEI record helpers of the common library
(`lib_common/HDR.c`). It covers these parts:

- **Conversion dispatch.** `GetConvFormat` and the 8-, 10-, 12-bit and tile tables map a
  decoded picture's chroma mode, input bit depth, output bit depth and tiling to a pixel
  conversion kernel (`Conversion`).
- **Output writer.** This is the uncompressed output path (`OutputWriter`):
  - `ConvertFrameBuffer` keeps or re-creates the destination buffer and lays out its planes;
  - `ProcessOutput` writes the IP CRC line;
  - `ProcessFrame` evens the bit depth, crops, computes the certification CRC and writes the
    YUV bytes.
- **Pre-allocation parser.** `parsePreAllocArgs` reads `WxH:mode:chroma:bd:profile:level`
  from a `std::stringstream` (`Prealloc`). The stream itself is modelled on libstdc++'s
  `num_get` and `istream` in the "C" locale (`TextStream`): whitespace skipping, `>> char`,
  `>> int` with the base taken from the text, and `tellg`. A leading `0` selects octal; one
  `x` or `X` after it selects hexadecimal and then needs a hexadecimal digit, so `0x` alone
  and `0xx5` store 0 and fail the stream.
- **Display callback.** `Display::Process`, `ProcessFrame` and `AddOutputWriter` form a
  state machine (`Display`). It covers end of stream and errors, the concealment count, bit
  depth resolution, writer calls, and the frame counter with its `MaxFrames` exit.
- **Resolution callback.** `sConfigureDecBufPool` and `sResolutionFound` lay out the decoded
  picture buffer pool, initialise it once, and hand every buffer to the decoder
  (`Resolution`).
- **Helpers.** These are `printHexdump`, `GetChannelsArgv`, `FourCCToString`,
  `SequencePictureToString`, `ToString` and `clip_it` (`Helpers`).
- **HDR SEIs.** `AL_HDRSEIs_Reset` and `AL_HDRSEIs_Copy` work on a record of five optional
  HDR messages (`Hdr`).

Imperative parts of the source are modelled as classes:

- the writer, the display, the buffer pool, the resolution handler, the settings record,
  the string stream and the HDR record;
- each of them has a `Value()` function;
- each method states its new state as a function of the old one.

The pure parts of the source are datatypes, functions and lemmas. Lengths are in bytes. C
integer division, 32-bit wrap-around and the unsigned frame counter are written out
explicitly (`Common.CDiv`, `Common.Wrap32`, `Display.FRAME_COUNT_MODULUS`).

## Model

| member | source | states |
|---|---|---|
| Conversion.Get8BitsConversionFunction | exe_decoder/main.cpp:503-538 | a kernel exists exactly for 8-bit input of a valid chroma mode going to 8 or 10 bits; every other key is the `assert(0)` / null case |
| Conversion.EightBitsConversionFits | exe_decoder/main.cpp:503-538 | every 8-bit entry reads the decoder's raster layout of that chroma mode and depth and writes the planar FourCC of the requested depth, or is the plain copy that only appears when nothing changes |
| Conversion.Get10BitsConversionFunction | exe_decoder/main.cpp:540-578 | a kernel exists exactly for 10-bit input of a valid chroma mode going to 8 or 10 bits |
| Conversion.TenBitsConversionFits | exe_decoder/main.cpp:540-578 | every 10-bit entry reads the matching raster layout and writes the requested planar layout |
| Conversion.Get12BitsConversionFunction | exe_decoder/main.cpp:580-631 | a kernel exists exactly for 12-bit input of a valid chroma mode going to 8, 10 or 12 bits |
| Conversion.TwelveBitsConversionFits | exe_decoder/main.cpp:580-631 | every 12-bit entry reads the matching raster layout and writes the requested planar layout |
| Conversion.GetTileConversionFunction | exe_decoder/main.cpp:633-711 | a tiled kernel exists exactly for 8/10/12-bit input of a valid chroma mode, 4:4:4 only at its own depth, output 8 or 10 bits or 12 from 12 |
| Conversion.TileConversionFits | exe_decoder/main.cpp:633-711 | every tile entry is a real conversion, never a copy; it reads the tiled layout (4:2:0 tiles for monochrome) of the input depth and writes the requested planar layout |
| Conversion.GetConversionFunction | exe_decoder/main.cpp:713-727 | tiled pictures use the tile table and raster pictures the table of their depth; a kernel exists exactly for the supported combinations, always fits the conversion, and is the plain copy exactly for raster 4:4:4 or 8/12-bit monochrome at an unchanged depth |
| Conversion.PackConvFormat | exe_decoder/main.cpp:501 | the key `chroma \| bdIn << 8 \| bdOut << 16` on 32 bits (a definition; see the two lemmas below) |
| Conversion.UnpackPackConvFormat | exe_decoder/main.cpp:501 | the packed key `chroma \| bdIn << 8 \| bdOut << 16` gives back its three fields |
| Conversion.PackConvFormatInjective | exe_decoder/main.cpp:501 | two keys are equal exactly when their fields are, so the tables can be indexed by the triple |
| Conversion.ChromaCodeInjective | exe_decoder/main.cpp:501 | distinct chroma modes have distinct codes in the key |
| OutputWriter.SampleBytes | exe_decoder/main.cpp:761 | `(bd + 7) >> 3` is the least number of bytes that holds a sample of `bd` bits |
| OutputWriter.CeilDiv | exe_decoder/main.cpp:763 | `(a + s - 1) / s` is the rounded-up quotient for a >= 0 |
| OutputWriter.ConvertBitDepthToEven | exe_decoder/main.cpp:857-860 | the result is even and is the depth or one more |
| OutputWriter.DestinationLayout | exe_decoder/main.cpp:761-776 | one plane for monochrome and Y, U, V otherwise; luma pitch is one row of samples, chroma pitch is that divided by sx rounded up; the planes follow one another without gap and end at the buffer size |
| OutputWriter.FrameBytesFillLayout | exe_decoder/main.cpp:870-897 | when the width is a multiple of sx, the bytes written to the YUV file equal the bytes allocated for the destination |
| OutputWriter.PixMapBuffer.Destroy | exe_decoder/main.cpp:739-740 | the buffer is destroyed and keeps its dimension |
| OutputWriter.PixMapBuffer.CropFrame | exe_decoder/main.cpp:872-873 | the dimension shrinks by the four crop offsets |
| OutputWriter.UncompressedOutputWriter.constructor | exe_decoder/main.cpp:847-855 | the files open as given, no destination buffer, nothing written |
| OutputWriter.UncompressedOutputWriter.ConvertFrameBuffer | exe_decoder/main.cpp:729-785 | the destination is kept exactly when its dimension matches and is destroyed otherwise; a new one has the picture's dimension, the output depth as a uint8_t, and DestinationLayout; both allocation failures throw; the kernel run is GetConversionFunction's, and an unlisted format is an error |
| OutputWriter.UncompressedOutputWriter.ProcessFrame | exe_decoder/main.cpp:862-898 | with neither file open it returns without converting and nothing changes. Otherwise the depth is evened and the buffer is reused when the dimension matches, else replaced; each allocation failure and a missing conversion routine is its own error, stating which buffer is left and that no file and no conversion log changes. On success the conversion log gains the routine of the picture's format, the destination is cropped, the certification CRC gets the sample counts and the 8-bit flag, and the YUV file gets exactly FrameBytes of the cropped dimension. |
| OutputWriter.UncompressedOutputWriter.CropAndWrite | exe_decoder/main.cpp:870-897 | the destination takes the cropped dimension, then the certification CRC call and the YUV byte count are appended for the open files; nothing else changes |
| OutputWriter.UncompressedOutputWriter.ProcessOutput | exe_decoder/main.cpp:816-822 | when the IP CRC file is open, one line of 8 upper-case hex digits is appended that reads back as the CRC; then every effect and error ProcessFrame states holds |
| OutputWriter.ChromaSamples | exe_decoder/main.cpp:881 | the samples of one chroma plane: none for 4:0:0, otherwise the rounded-up width over sx times the rounded-up height over sy |
| OutputWriter.FrameBytes | exe_decoder/main.cpp:880-897 | the bytes written: luma samples plus two chroma planes, times the sample size of the depth |
| Hex.HexFixed | exe_decoder/main.cpp:819 | `setw(width)` zero-filled hex has exactly `width` digits and reads back as the value |
| Hex.HexFixedInjective | exe_decoder/main.cpp:819 | distinct values print differently at a fixed width |
| TextStream.StringStream.ReadInt | exe_decoder/main.cpp:250 | `ss >> int` with the base field cleared: the new stream state and value are ExtractInt's |
| TextStream.StringStream.ReadChar | exe_decoder/main.cpp:255 | `ss >> char`: the new stream state and character are ExtractChar's |
| TextStream.StringStream.TellG | exe_decoder/main.cpp:298 | tellg is the position on a good stream and -1 otherwise, and it sets failbit on a stream that is not good |
| TextStream.ExtractInt | exe_decoder/main.cpp:250 | a failed sentry leaves the target and fails the stream; otherwise the result is a 32-bit value and the stream only moves forward (values: ExtractIntDec, ExtractIntNoNumber, ExtractIntHexNoDigit) |
| TextStream.StringStream.ReadPrefix | exe_decoder/main.cpp:250 | the base prefix read one character at a time, taking at most one `x`, is Prefix's |
| TextStream.ExtractChar | exe_decoder/main.cpp:255 | a character is read exactly when the stream is good and a non-space remains; it is the first non-space, and otherwise the stream fails |
| TextStream.SkipSpaces | exe_decoder/main.cpp:250 | the sentry's whitespace skip stops at the first non-space or at the end |
| TextStream.Sentry | exe_decoder/main.cpp:250 | the formatted-input sentry succeeds exactly on a good stream with a non-space left, and then stands on it; otherwise the stream fails |
| TextStream.Prefix | exe_decoder/main.cpp:248-250 | with the base field cleared, a leading `0` selects octal and counts as a digit; exactly one `x`/`X` after it selects hexadecimal and withdraws that count; anything else is decimal from the same place |
| TextStream.ReadMagnitude | exe_decoder/main.cpp:250 | a number that saw a digit ends past its start; one that saw none consumed nothing, or only a `0x` prefix |
| TextStream.NumGet | exe_decoder/main.cpp:250 | the integer parse gives a 32-bit value and only moves forward; its value and failbit on decimal, hexadecimal and bare `0x` input are stated by the lemmas below |
| TextStream.ExtractIntNoSpace | exe_decoder/main.cpp:250 | on a good stream standing on a non-space the sentry does nothing and the parse starts there |
| TextStream.NumGetNonNeg | exe_decoder/main.cpp:250 | decimal digits of a value up to INT_MAX followed by a non-digit read as that value |
| TextStream.NumGetNeg | exe_decoder/main.cpp:250 | a minus sign and digits of a magnitude up to 2^31 read as the negative value |
| TextStream.NumGetDecNonNeg | exe_decoder/main.cpp:250 | the decimal text of a non-negative 32-bit value reads back as it |
| TextStream.NumGetDecNeg | exe_decoder/main.cpp:250 | the decimal text of a negative 32-bit value reads back as it |
| TextStream.StringStream.constructor | exe_decoder/main.cpp:247 | a good stream at the start of the text |
| TextStream.StringStream.RunSentry | exe_decoder/main.cpp:250 | the new stream state is Sentry's |
| TextStream.ExtractIntDec | exe_decoder/main.cpp:250 | the decimal text of any 32-bit value followed by a non-digit reads back as that value, consuming exactly its digits |
| TextStream.NumGetHex | exe_decoder/main.cpp:250 | `0x` or `0X` and hexadecimal digits up to INT_MAX, then a non-hex character, read as their hexadecimal value without failing |
| TextStream.ScanHex | exe_decoder/main.cpp:250 | the unsigned part `0x` and hexadecimal digits ends right after the digits, with their value |
| TextStream.NumGetHexNoDigit | exe_decoder/main.cpp:250 | `0x` or `0X` with no hexadecimal digit after it consumes the prefix, stores 0 and sets failbit |
| TextStream.NumGetDoubleX | exe_decoder/main.cpp:250 | in `0xx…` the second `x` ends the number, which stores 0 and fails |
| TextStream.ExtractIntHexNoDigit | exe_decoder/main.cpp:250 | on a good stream, `0x` without a hexadecimal digit stores 0 and fails the stream, past the prefix |
| TextStream.ExtractIntNoNumber | exe_decoder/main.cpp:250 | a character that cannot start a number gives 0 and fails the stream |
| TextStream.ExtractCharAt | exe_decoder/main.cpp:255 | on a good stream the next non-space character is read and the stream moves past it |
| TextStream.ExtractCharFailed | exe_decoder/main.cpp:255 | nothing is read from a failed stream |
| Prealloc.RoundUp | exe_decoder/main.cpp:110-113 | the result is a 32-bit int (overflow wraps) |
| Prealloc.RoundUpMultiple | exe_decoder/main.cpp:110-113 | without overflow, the result is a multiple of `rnd`, at least `v` and below `v + rnd` |
| Prealloc.RoundUpLeast | exe_decoder/main.cpp:110-113 | no smaller multiple of `rnd` is at least `v` |
| Prealloc.RoundUpExact | exe_decoder/main.cpp:110-113 | a multiple of `rnd` is left as it is |
| Prealloc.RoundUpPositive | exe_decoder/main.cpp:110-113 | the result is positive exactly when `v` is positive and `v + rnd - 1` does not overflow |
| Prealloc.RoundUpNotPositive | exe_decoder/main.cpp:110-113 | a non-positive or overflowing input rounds to a non-positive value |
| Prealloc.ExpectSeparatorAt | exe_decoder/main.cpp:230-237 | the next non-space character is read and accepted exactly when it is the expected separator |
| Prealloc.ReadToken | exe_decoder/main.cpp:255-259 | reading `n` chars leaves `n` entries in the array (NUL where nothing was extracted) |
| Prealloc.ReadTokenAt | exe_decoder/main.cpp:255-259 | `n` non-space characters are read as themselves |
| Prealloc.CString | exe_decoder/main.cpp:278 | `string(chroma)` is the array up to its first NUL |
| Prealloc.CStringToken | exe_decoder/main.cpp:278 | a token without NUL followed by the array's NUL is read back whole |
| Prealloc.ParsePreAlloc | exe_decoder/main.cpp:245-303 | the parse returns no error only for settings that pass invalidPreallocSettings, and the last error is thrown only for settings that fail it |
| Prealloc.ParseTokens | exe_decoder/main.cpp:254-303 | the same guarantees from the mode token on |
| Prealloc.ParseNumbers | exe_decoder/main.cpp:266-303 | the same guarantees from the bit depth on |
| Prealloc.Validate | exe_decoder/main.cpp:275-302 | the same guarantees for the rounding and the checks |
| Prealloc.ParseLaidOut | exe_decoder/main.cpp:245-303 | a text laid out as the format reads every field, and ends at the tail |
| Prealloc.ChromaToken | exe_decoder/main.cpp:278-287 | each chroma mode has a 3-char token the parser maps back to it |
| Prealloc.ChromaTokenInverse | exe_decoder/main.cpp:278-287 | an accepted chroma token is the token of the mode it maps to |
| Prealloc.ModeToken | exe_decoder/main.cpp:289-296 | each sequence mode has a 5-char token the parser maps back to it |
| Prealloc.ModeTokenInverse | exe_decoder/main.cpp:289-296 | an accepted mode token is the token of the mode it maps to |
| Prealloc.ValidateTokens | exe_decoder/main.cpp:275-299 | dimensions are rounded to 64. A bad chroma throws the chroma error and a bad mode throws the video error. A failed or unfinished stream throws the format error. |
| Prealloc.ValidateAccepts | exe_decoder/main.cpp:275-302 | no error exactly when both tokens are known, the stream ended cleanly, profile and level are positive, and both dimensions are positive and round up without overflow |
| Prealloc.PreallocNumbers | exe_decoder/main.cpp:245-276 | on a laid-out text: width and height are RoundUp(., 64), and bit depth, profile and level are as written |
| Prealloc.PreallocFields | exe_decoder/main.cpp:278-299 | on a laid-out text: the chroma and mode errors in that order, the decoded modes, and the format error for trailing text |
| Prealloc.PreallocAccepts | exe_decoder/main.cpp:245-303 | a laid-out text is accepted exactly when both tokens are known, nothing trails, profile and level are positive, and both dimensions are positive and round without overflow |
| Prealloc.WidthSeparatorRefused | exe_decoder/main.cpp:230-251 | any separator other than `x` after the width throws the separator error, with the width already stored |
| Prealloc.ModeSeparatorRefused | exe_decoder/main.cpp:254-260 | any separator other than `:` after the mode throws the separator error |
| Prealloc.MissingWidthRefused | exe_decoder/main.cpp:250-251 | a text that does not start with a number stores width 0 and throws the separator error |
| Prealloc.HeightSeparatorRefused | exe_decoder/main.cpp:250-253 | any separator other than `:` after the height throws the separator error, with width and height already stored |
| Prealloc.MissingHeightRefused | exe_decoder/main.cpp:250-253 | a height that is not a number stores height 0 and throws the separator error |
| Prealloc.ChromaSeparatorRefused | exe_decoder/main.cpp:254-265 | any separator other than `:` after the chroma throws the separator error, leaving the numeric fields untouched |
| Prealloc.BitDepthSeparatorRefused | exe_decoder/main.cpp:266-267 | any separator other than `:` after the bit depth throws the separator error, with the bit depth stored |
| Prealloc.ProfileSeparatorRefused | exe_decoder/main.cpp:266-269 | any separator other than `:` after the profile throws the separator error, with bit depth and profile stored |
| Prealloc.MissingLevelRefused | exe_decoder/main.cpp:266-299 | a level that is not a number stores 0 and fails the stream: an unknown chroma or mode still throws its own error first, otherwise the format error |
| Prealloc.ExpectSeparator | exe_decoder/main.cpp:230-237 | getExpectedSeparator: one character is extracted and matched against the expected separator (a definition) |
| Prealloc.InvalidPreallocSettings | exe_decoder/main.cpp:239-243 | a settings value is invalid when profile, level, width or height is not positive, or chroma or mode is the max enum (a definition) |
| Prealloc.HexLevelWithoutDigitRefused | exe_decoder/main.cpp:266-299 | a level written `0x` or `0xx…` stores 0 and fails the stream: an unknown chroma or mode throws its own error first, otherwise the format error |
| Prealloc.PreallocAccepted | exe_decoder/main.cpp:245-303 | a well-formed argument gives exactly the written settings with rounded dimensions |
| Prealloc.PreallocExample | exe_decoder/main.cpp:272-276 | `1920x1080:progr:420:8:1:40` gives 1920x1088 progressive 4:2:0 |
| Prealloc.FormatPrealloc | exe_decoder/main.cpp:245-303 | the argument text of a settings value, at least 19 characters |
| Prealloc.PreallocRoundTrip | exe_decoder/main.cpp:245-303 | parsing the text of any accepted settings gives those settings back |
| Prealloc.GetExpectedSeparator | exe_decoder/main.cpp:230-237 | the stream step and the verdict are ExpectSeparator's |
| Prealloc.ExtractNext | exe_decoder/main.cpp:255 | one more `ss >> a[k]` extends the token read so far by ReadToken's next entry; the rest stays NUL |
| Prealloc.ReadModeChars | exe_decoder/main.cpp:254-259 | a fresh `char[6]` holds ReadToken's five chars and a NUL |
| Prealloc.ReadChromaChars | exe_decoder/main.cpp:261-264 | a fresh `char[4]` holds ReadToken's three chars and a NUL |
| Prealloc.ReadTokens | exe_decoder/main.cpp:254-265 | the settings and error after the tokens are ParseTokens' |
| Prealloc.ReadNumbers | exe_decoder/main.cpp:266-270 | the settings and error after the numbers are ParseNumbers' |
| Prealloc.CheckSettings | exe_decoder/main.cpp:275-302 | the settings and error after the checks are Validate's |
| Prealloc.SettingsRecord.constructor | exe_decoder/main.cpp:245 | the settings record holds the given values |
| Prealloc.ParsePreAllocArgs | exe_decoder/main.cpp:245-303 | the settings written in place and the error thrown are ParsePreAlloc's |
| Display.IsEOS | exe_decoder/main.cpp:1087-1090 | the end of the stream: neither a picture nor a description (a definition, used by Step) |
| Display.IsReleaseFrame | exe_decoder/main.cpp:1093-1096 | a picture handed back without a description (a definition, used by Step) |
| Display.ResolveBitDepth | exe_decoder/main.cpp:1134-1137 | 0 becomes the larger of the luma and chroma depths, -1 the decoder's maximum, and any other depth is kept |
| Display.Step | exe_decoder/main.cpp:1105-1159 | an error or end of stream sets the exit event and changes nothing else. The configuration is never changed. Concealment is counted once per surviving picture, and a released picture is neither written nor counted. A writer is called only when one exists and FirstFrame is reached. Main-mode pictures add 1 mod 2^32 and are handed back, with exit once the count passes MaxFrames. |
| Display.Show | exe_decoder/main.cpp:1134-1158 | the shown-picture part keeps the state valid (its content is stated by Step) |
| Display.Run | exe_decoder/main.cpp:1099-1103 | a sequence of callbacks keeps the state valid |
| Display.StepCountsFrame | exe_decoder/main.cpp:1143-1158 | one callback adds one to the count (mod 2^32) and to the pictures handed back exactly for a counted picture |
| Display.RunCountsFrames | exe_decoder/main.cpp:1143-1158 | after any run, NumFrames is the start plus the number of main-mode pictures shown, mod 2^32, and as many pictures were handed back |
| Display.RunCallsGrow | exe_decoder/main.cpp:1162-1166 | a run only appends writer calls, at most one per callback |
| Display.StepCallsAllowed | exe_decoder/main.cpp:1162-1166 | one callback only calls writers that exist, at counts at or past FirstFrame |
| Display.RunCallsAllowed | exe_decoder/main.cpp:1162-1166 | the same holds for every writer call of a run |
| Display.RunExitUnlimited | exe_decoder/main.cpp:1105-1159 | with MaxFrames at UINT_MAX, the exit event is set exactly when some callback brings an error or the end of the stream |
| Display.Display.constructor | exe_decoder/main.cpp:901-929 | no writer, depth 8, count 0, MaxFrames UINT_MAX, FirstFrame 0 |
| Display.Display.AddOutputWriter | exe_decoder/main.cpp:952-959 | the storage mode gets a writer, nothing else changes |
| Display.Display.ProcessFrame | exe_decoder/main.cpp:1162-1166 | a writer call is logged exactly when a writer exists for the mode and FirstFrame is reached |
| Display.Display.Process | exe_decoder/main.cpp:1105-1159 | the new state is Step's |
| Display.Display.ShowPicture | exe_decoder/main.cpp:1134-1158 | the new state is Show's |
| Resolution.LayoutBytes | exe_decoder/main.cpp:1234-1263 | in either mode the chunks added hold exactly the sum of the plane sizes |
| Resolution.MultiChunkBytes | exe_decoder/main.cpp:1245-1256 | the first k chunks of the multi-chunk layout hold the first k plane sizes |
| Resolution.SingleChunkPacked | exe_decoder/main.cpp:1245-1260 | the single chunk lists every plane, the first at offset 0, each after the previous one and the last ending at the chunk size |
| Resolution.MultiChunkPerPlane | exe_decoder/main.cpp:1245-1256 | one chunk per plane, sized as the plane, the plane at offset 0 with its pitch |
| Resolution.BufPool.constructor | exe_decoder/main.cpp:934 | an empty pool |
| Resolution.BufPool.SetFormat | exe_decoder/main.cpp:1237 | only the format changes |
| Resolution.BufPool.AddChunk | exe_decoder/main.cpp:1253 | one chunk is appended |
| Resolution.BufPool.Init | exe_decoder/main.cpp:1301 | on success the pool has `n` (at least 0) free buffers; on failure nothing changes |
| Resolution.BufPool.GetBuffer | exe_decoder/main.cpp:1307 | the next free buffer is taken, or none when the pool is exhausted |
| Resolution.ConfigureDecBufPoolAsWritten | exe_decoder/main.cpp:1234-1263 | the pool gets the format and the layout; the returned size is the sum of the planes in single-chunk mode and 0 in multi-chunk mode |
| Resolution.ConfigureDecBufPool | exe_decoder/main.cpp:1234-1263 | the same pool effect; the returned size is the sum of the planes, which is what the chunks hold, in both modes |
| Resolution.MultiChunkSizeLost | exe_decoder/main.cpp:1251-1262 | for a two-plane picture in multi-chunk mode the source returns 0 while 12 bytes are laid out |
| Resolution.Handed | exe_decoder/main.cpp:1305-1316 | the buffers handed to the decoder, one per index |
| Resolution.FoundWithoutDecoder | exe_decoder/main.cpp:1272-1273 | without a decoder the callback returns AL_ERROR and changes nothing |
| Resolution.FoundHandsEveryBuffer | exe_decoder/main.cpp:1299-1316 | the first successful call makes `BufferNumber + 1` buffers, hands each to the decoder once, filled with 0xDE and tagged for HDR as configured, and leaves none free |
| Resolution.FoundRetriesAfterNoMemory | exe_decoder/main.cpp:1286-1302 | an allocation failure returns AL_ERR_NO_MEMORY and hands nothing over, but the chunks stay, so a retry lays the pool out twice |
| Resolution.FoundOnlyOnce | exe_decoder/main.cpp:1295-1297 | after an initialised pool, a later call succeeds and changes nothing |
| Resolution.Found | exe_decoder/main.cpp:1265-1319 | the decoder and HDR flags are kept; with a decoder the call succeeds exactly when the pool ends up initialised; buffers handed over stay handed over; an initialised pool is never redone |
| Resolution.SizeAsWritten | exe_decoder/main.cpp:1251-1262 | the size sConfigureDecBufPool returns: the laid-out bytes in single-chunk mode and 0 in multi-chunk mode |
| Resolution.FoundShownSize | exe_decoder/main.cpp:1283-1291 | the size shown is the library's frame size once the pool is initialised; on the first call it is the laid-out bytes in single-chunk mode and 0 in multi-chunk mode, as written |
| Resolution.ResolutionHandler.constructor | exe_decoder/main.cpp:1501-1505 | the pool is not initialised and HDR metadata is added as configured |
| Resolution.ResolutionHandler.ResolutionFound | exe_decoder/main.cpp:1265-1319 | the new state, the return code and the size shown are Found's, with the size sConfigureDecBufPool returns as written |
| Helpers.Cell | exe_decoder/main.cpp:971 | a byte prints as two hex digits that read back as the byte |
| Helpers.HexdumpLayout | exe_decoder/main.cpp:962-985 | `n` bytes print as `3n - 1` characters: each byte's two digits at `3i`, then a newline after every eighth byte and a space otherwise, with nothing after the last |
| Helpers.ReadHexdump | exe_decoder/main.cpp:962-985 | the bytes read back from a dump, one per three characters |
| Helpers.HexdumpRoundTrip | exe_decoder/main.cpp:962-985 | reading a dump back gives the bytes dumped |
| Helpers.Hexdump | exe_decoder/main.cpp:962-985 | the dump of `n` bytes has `3n - 1` characters, and none for no bytes |
| Helpers.PrintHexdump | exe_decoder/main.cpp:962-985 | the loop prints Hexdump of the first `size` bytes, and nothing for a size of 0 or less |
| Helpers.FirstNextChannel | exe_decoder/main.cpp:1409-1413 | the position of the first `--next-chan`, or none when absent |
| Helpers.FirstNextChannelAt | exe_decoder/main.cpp:1409-1413 | when no earlier argument is `--next-chan`, the one at `i` is the first |
| Helpers.GetChannelsArgv | exe_decoder/main.cpp:1405-1426 | without `--next-chan` every argument goes to channel 0 and 0 is returned; otherwise the arguments before it are pushed and "Too many channels" is thrown |
| Helpers.FourCCToString | exe_decoder/main.cpp:1168-1173 | four characters, each one byte |
| Helpers.FourCCOf | exe_decoder/main.cpp:1168-1173 | four bytes, least significant first, make a 32-bit code |
| Helpers.FourCCRoundTrip | exe_decoder/main.cpp:1168-1173 | the string gives back the code |
| Helpers.FourCCStringRoundTrip | exe_decoder/main.cpp:1168-1173 | the code of a 4-byte string prints as that string |
| Helpers.SequencePictureToString | exe_decoder/main.cpp:1175-1186 | the name of each sequence mode (a definition; see SequencePictureNamesDistinct) |
| Helpers.SequencePictureNamesDistinct | exe_decoder/main.cpp:1175-1186 | distinct sequence modes have distinct names |
| Helpers.ErrorMessage | exe_decoder/main.cpp:86-98 | the message of each error code, "Unknown error" for the rest (a definition; see UnknownErrorMessage) |
| Helpers.UnknownErrorMessage | exe_decoder/main.cpp:86-98 | "Unknown error" is the message exactly of the codes ToString does not list |
| Helpers.ClipIt | exe_decoder/main.cpp:1676-1685 | below min gives min; in range gives the value; above max (and not below min) gives max |
| Helpers.ClipItInRange | exe_decoder/main.cpp:1676-1685 | for min <= max, the result is in range, is the nearest value in range, and is a fixed point |
| Helpers.ClipItMonotone | exe_decoder/main.cpp:1676-1685 | for min <= max, clipping keeps order |
| Hdr.ResetClears | lib_common/HDR.c:40-50 | reset clears every flag, keeps every payload, and is idempotent |
| Hdr.CopyCarriesMessages | lib_common/HDR.c:52-78 | the destination carries the source's flags and present payloads, and keeps its payloads of absent messages |
| Hdr.CopyUnique | lib_common/HDR.c:52-78 | those two facts determine the copy |
| Hdr.CopyIdempotent | lib_common/HDR.c:52-78 | copying twice is copying once, and copying a record onto itself changes nothing |
| Hdr.CopyOfEmptyIsReset | lib_common/HDR.c:40-78 | copying a record with no message is a reset |
| Hdr.HdrSeis.constructor | lib_common/HDR.c:40-78 | the record holds the given flags and payloads |
| Hdr.Reset | lib_common/HDR.c:40-50 | nothing for null, otherwise the record becomes ResetValue |
| Hdr.Copy | lib_common/HDR.c:52-78 | the destination becomes CopiedValue of the old records, also when both are the same record, and a distinct source is unchanged |

## Left out

- **Foreign calls.** All library calls are not part of this model; they are inputs or
  logged effects:
  - `AL_GetChromaMode`, `AL_GetSubsampling`, the plane sizes and pitches of the library;
  - `AL_Decoder_*`, `Rtos_*`, the allocator, and the conversion kernels themselves.
  The model records which kernel runs and which buffer is handed over, not what they do to
  pixels.
- **I/O.** Files are the sequence of what is written: byte counts for the YUV file, lines
  for the IP CRC file, and `Compute_CRC` calls for the certification CRC. Logging,
  `showStreamInfo`, `writeSei`, `DisplayFrameStatus` and the HDR writer's output are left
  out.
- **Concurrency.** The mutexes of `Display` and `ResChgParam`, the worker threads and the
  exit event's waiters are not modelled; each callback runs alone.
- **Pool internals.** `PixMapBufPool` is modelled only through the five calls made on it.
  `CropFrame` is external; only its effect on the dimension is modelled.
- **HDR metadata.**
  - `AddHDRMetaData` is a flag on the buffer handed over; its failure path is not modelled.
  - The HDR writer call in `Display::Process` is not modelled.
  - HDR payload fields are opaque; the record only ever copies a payload whole.
- **Display counters.** `iNumFrameConceal` is an unbounded count. The source's `int` would
  overflow after 2^31 concealed pictures.
- Display.Display.ProcessFrame: the writer call is logged, not executed.
  `UncompressedOutputWriter.ProcessOutput` models what the writer does.
- Display.Display.Process: a writer that throws `runtime_error` (main.cpp:753-756 and
  779-780, both allocation failures) ends `Display::Process` before `PutDisplayPicture` and
  `NumFrames++` (main.cpp:1143-1158). The display model assumes every writer call returns,
  so that abort is not modelled; the writer's own error result states the failure.
- OutputWriter.UncompressedOutputWriter.ProcessFrame: one pair `sx`, `sy` stands for the
  subsampling of both `tConvFourCC` (main.cpp:752, 758-759) and `tRecFourCC`
  (main.cpp:875-878). The two formats share the chroma mode, so the library gives the same
  pair; the model does not check that.
- **Pre-allocation parser.**
  - Prealloc.ExpectSeparator: when `ss >> sep` fails, `sep` is uninitialised in the source.
    The model treats it as a mismatch.
  - Prealloc.RoundUp: signed overflow of `iVal + iRnd - 1` is undefined behaviour in C++.
    The model wraps it to 32 bits.
  - The refusal lemmas cover a wrong separator after each field, and a missing width,
    height and level. They leave out a missing bit depth or profile, whose failed
    extraction makes the next separator check throw, as for a missing height.
  - The laid-out lemmas take widths other than 0, because a leading `0x` would start a hex
    prefix. They also take tokens without spaces or NUL, since argv strings have no NUL.
- Conversion.PackConvFormatInjective: stated for fields below 256, and output depths below
  65536. Every table key is in that range.
- OutputWriter.UncompressedOutputWriter.ProcessFrame: the 32-bit `int` products of the
  sample counts are unbounded. The same holds for the even-depth `iBd + 1` at `INT_MAX`.
- **Resolution.**
  - Resolution.Found: `BufferNumber + 1` and `iOffset` are unbounded integers. A negative
    buffer count initialises an empty pool.
  - The debug `assert(BufferSize >= BufferSizeLib)` at main.cpp:1291 is not checked. In
    multi-chunk mode it fails; see Findings.
  - Resolution.ResolutionHandler.ResolutionFound, Resolution.Found and
    Resolution.FoundShownSize use the size as written, so they show 0 in multi-chunk mode.
    Resolution.ConfigureDecBufPool is the corrected size; no callback uses it.
- Helpers.GetChannelsArgv: with `MAX_CHANNELS` equal to 1, the push of `argv[0]` into the
  next channel can never run. It is left out.
- Helpers.ClipIt: the template's three independent types are all `int` here.
- `SequencePictureToString` and `ToString` carry only the properties stated. Their strings
  are copied, not proved.

## Findings

| source | as written | input that shows it | evidently intended | confidence | as-written member | corrected member |
|---|---|---|---|---|---|---|
| exe_decoder/main.cpp:1251-1262 | in multi-chunk mode `iOffset` is reset to 0 after each chunk, so `sConfigureDecBufPool` returns 0. `sResolutionFound` then shows a buffer size of 0, and its `assert(BufferSize >= BufferSizeLib)` fails in debug builds. | `--multi-chunk`, a 4:2:0 picture with plane sizes 8 and 4: returns 0, while 12 bytes are laid out | return the total bytes laid out (the sum of the plane sizes) in both modes | not executed | Resolution.ConfigureDecBufPoolAsWritten, Resolution.SizeAsWritten, Resolution.MultiChunkSizeLost (the callback uses these, to show what the source does) | Resolution.ConfigureDecBufPool |
