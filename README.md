# Robot 36 / Robot 72 SSTV encoder

This project models the Robot-mode encoder of an SSTV (slow-scan television)
library and proves properties about it. Given a decoded pixel buffer, the
encoder announces the mode with a calibration header carrying the mode's VIS
code: 8 for Robot 36 and 12 for Robot 72. It then emits, row by row and top
to bottom, a stream of tone instructions to a sample sink:

- a sync pulse and a sync porch;
- the row's luma scan;
- chroma:
  - Robot 36: one chroma segment. On even rows this is the even separation
    tone, the chroma porch and the U scan. On odd rows it is the odd
    separation tone, the chroma porch and the V scan.
  - Robot 72: two chroma segments on every row, U then V. Each is preceded
    by the even separation tone and the chroma porch.

Each scan resamples the row's `width` per-pixel frequencies to the mode's
sample count with a nearest-neighbour loop. The loop emits untimed samples
(duration `null`). Any other mode throws "Invalid ROBOT mode" before anything
is sent.

Files:

- `sink.dfy`: module `Sink`. The sample sink is a class `Encoder` with a
  fixed `sampleRate` and an append-only `log` of every call made on it,
  headers and samples alike, in order.
- `robot.dfy`: module `Robot`. It holds:
  - the mode table and the structural tones;
  - the resampler: the `ScanLine` method and its specification `ScanSamples`;
  - the per-row colour conversion: the `ScanRow` method and its
    specification `RowScans`;
  - the per-row emission: the `EmitRow` and `SendChroma` methods and their
    specification `RowTrace`;
  - the row loop `EncodeRows`;
  - the entry point `RobotEncode`. Its contract ties the sink's new log to
    `EncodeTrace`: the header followed by the concatenation of all row
    traces.
- `robot_properties.dfy`: module `RobotProperties`. It holds what the
  output promises a receiver:
  - the layout of each row and its tone counts;
  - where each row sits in the transmission;
  - which pixel each scan sample shows;
  - that the header comes first and only once;
  - that each row reads only its own stretch of the pixel buffer;
  - a one-pixel end-to-end instance.
- `blocks.dfy`: module `Blocks`. It holds generic facts about concatenating
  equally long blocks, used to place rows in the transmission, and the small
  arithmetic and sequence facts the proofs rest on.
- `wrappers.dfy`: module `Wrappers`. It holds the `Option` type used by the
  mode table and by the sink's sample calls.

The colour conversions `rgb2yuv` and `yuv2freq` live in a utility library
outside this model. They are parameters, bundled as a `ColorMapper`, so
every property holds whatever they compute.

Arithmetic is over exact reals:

- `ySamples = sampleRate * (yScanDuration / 1000)`, and likewise
  `uvSamples`.
- `scale = width / samples`.
- The loop `for (i = 0; i < n; ++i)` runs `SampleCount(n)` times, which is
  the ceiling of `n` for positive `n`.
- Sample `i` shows pixel `floor(scale * i)`.

The loop bound is the unrounded real `n`, so a scan sends `ceil(n)`
samples, not `round(n)`. The index uses `scale = width / n` with the same
unrounded `n`.

A one-pixel Robot 36 image sends sync, sync porch, one luma sample, the
separation tone, the chroma porch and one U sample only at a sample rate
where both counts come to one. `RobotProperties.OnePixelRobot36` proves this
at 10 Hz, with the calibration header in front.

The comment at `encoders/robot.ts:62` says odd rows scan "Y". The code scans
channel index 2, which is V, and the model follows the code.

## Model

| member | source | states |
|---|---|---|
| Robot.ModeTiming | encoders/robot.ts:13-23 | A timing exists exactly for Robot 36 and Robot 72. Its chroma scan lasts half its luma scan. Its chroma-porch frequency lies in [1500, 2300) Hz. |
| Robot.VisCode | encoders/robot.ts:7-8 | A calibration code exists exactly for the modes the mode table accepts. The code is 8 exactly for Robot 36, and 12 for Robot 72. |
| Robot.Porch | encoders/robot.ts:30 | The chroma porch has the mode's porch frequency. Whatever that frequency, the porch is a different sink call from the sync pulse, the sync porch and both separation tones. |
| Robot.Emit | encoders/robot.ts:55-56 | `sample(...tuple)` sends a timed sample with the tuple's frequency. |
| Robot.StructuralTonesDistinct | encoders/robot.ts:25-29 | The sync pulse, the sync porch, the even separation tone and the odd separation tone are four different sink calls. |
| Robot.ParityOf | encoders/robot.ts:44 | A row is even exactly when its index is even, and parity alternates from one row to the next. |
| Robot.SampleCount | encoders/robot.ts:38-39 | The scan loop `for (i = 0; i < n; ++i)` runs c times, with c - 1 < n <= c for n > 0 (the ceiling), and never for n <= 0. |
| Robot.ScanIndex | encoders/robot.ts:34-40 | For every i the loop reaches, the index `floor(scale * i)`, where `scale = width / n`, lies in [0, width). |
| Robot.Resample | encoders/robot.ts:38-40 | k loop iterations emit exactly k samples. |
| Robot.ResampleAt | encoders/robot.ts:40 | Sample i of a scan is `line[floor(i * width / n)]`, sent with no duration. |
| Robot.ScanSamples | encoders/robot.ts:38-41 | A scan over n samples sends `SampleCount(n)` calls. |
| Robot.ScanLine | encoders/robot.ts:38-41 | The sink's log grows by exactly the scan's samples, in loop order. |
| Robot.PixelOffset | encoders/robot.ts:49 | The offset `(y * width + x) * channels` equals the start of row y's stretch, y*width*channels, plus x*channels. |
| Robot.PixelInRow | encoders/robot.ts:49-50 | Pixel (x, y)'s offset is y*width*channels + x*channels. Its three bytes lie inside row y's stretch of width*channels bytes, and that stretch lies inside the buffer. |
| Robot.RowBytes | encoders/robot.ts:49 | Row y's stretch of the buffer has width*channels bytes. |
| Robot.PixelFromRowBytes | encoders/robot.ts:49-50 | The three bytes read for pixel (x, y) are bytes x*channels .. x*channels+2 of row y's stretch. |
| Robot.PixelYuv | encoders/robot.ts:49-50 | The colour of pixel (x, y) is `rgb2yuv` of bytes x*channels .. x*channels+2 of row y's stretch of the buffer. |
| Robot.PixelYuvAtOffset | encoders/robot.ts:49-50 | The three bytes at offset `(y * width + x) * channels` lie inside the buffer, and `rgb2yuv` of them is pixel (x, y)'s colour. |
| Robot.ScansPrefix | encoders/robot.ts:47-52 | After k pixels, each of the luma, U and V scans has k entries. |
| Robot.ScansPrefixAt | encoders/robot.ts:48-51 | Entry x of the luma, U and V scans is `yuv2freq` of pixel (x, y)'s Y, U and V. |
| Robot.ScanRow | encoders/robot.ts:46-52 | The x loop builds exactly the row's scan triple `RowScans`. |
| Robot.RowScans | encoders/robot.ts:46-52 | Each of a row's luma, U and V scans has one entry per pixel. |
| Robot.LumaSamples | encoders/robot.ts:33 | The luma sample count `sampleRate * (yScanDuration / 1000)` is positive for a positive rate and duration. |
| Robot.ChromaSamples | encoders/robot.ts:35 | The chroma sample count is positive for a positive rate and duration. It is half the luma count when a chroma scan lasts half a luma scan, as in both modes. |
| Robot.RowLength | encoders/robot.ts:54-76 | A row has at least 4 + ny + nuv calls: sync, sync porch, the luma scan, separation, porch and one chroma scan. It has exactly that many only in Robot 36. |
| Robot.ChromaSegment | encoders/robot.ts:63-65 | A chroma segment is 2 + nuv calls: the separation tone, then the chroma porch, then the scan. |
| Robot.RowTrace | encoders/robot.ts:54-76 | A row sends 4 + ny + nuv calls in Robot 36 and 6 + ny + 2*nuv in Robot 72, where ny and nuv are the luma and chroma sample counts. |
| Robot.ImageScans | encoders/robot.ts:43-52 | There is one scan triple per image row. |
| Robot.RowTraces | encoders/robot.ts:43-76 | There is one row trace per scanned row. |
| Robot.ImageScansSnoc | encoders/robot.ts:43 | Scanning one more row appends that row's scans at the end. |
| Robot.RowTracesSnoc | encoders/robot.ts:43-44 | Emitting one more row appends its trace, with that row's own parity. |
| Robot.ModeLumaSamples | encoders/robot.ts:33 | The luma sample count is positive for a positive sample rate. |
| Robot.ModeChromaSamples | encoders/robot.ts:35 | The chroma sample count is positive for a positive sample rate. |
| Robot.EncodeTrace | encoders/robot.ts:7-8 | A successful encode's output starts with the calibration header, 8 for Robot 36 and 12 for Robot 72. It is exactly one call longer than the concatenated rows. |
| Robot.EncodedRows | encoders/robot.ts:43-77 | A successful encode sends one row trace per image row. |
| Robot.SendChroma | encoders/robot.ts:63-65 | A chroma segment appends the separation tone, the chroma porch and the chroma scan. |
| Robot.EmitRow | encoders/robot.ts:54-76 | Emitting row y appends exactly that row's trace for the mode and parity. |
| Robot.EncodeRows | encoders/robot.ts:43-77 | The row loop appends the traces of rows 0 .. height-1, in order, one after another. |
| Robot.RobotEncode | encoders/robot.ts:4-78 | For a mode other than Robot 36 and Robot 72, the outcome is the failure "Invalid ROBOT mode" and the log is unchanged: no header and no sample. Otherwise the log grows by the header followed by every row's trace. |
| Sink.Encoder.Sample | encoders/robot.ts:55-56 | A sample call appends exactly one sample, with its frequency and duration, to the log. |
| Sink.Encoder.SampleCalibrationHeader | encoders/robot.ts:7-8 | A header call appends exactly one header with its VIS code to the log. |
| RobotProperties.ScanSamplesAreUntimed | encoders/robot.ts:40 | Every call a scan makes is an untimed sample. A scan never sends a header or a timed tone. |
| RobotProperties.ResampleFourIntoTwo | encoders/robot.ts:38-40 | A four-pixel line squeezed into two samples sends pixels 0 and 2. |
| RobotProperties.SinglePixelScan | encoders/robot.ts:38-40 | A one-pixel line is repeated for every sample of the scan. |
| RobotProperties.RowStart | encoders/robot.ts:54-57 | Every row opens with the sync pulse (1200 Hz, 9 ms), the sync porch (1500 Hz, 3 ms) and then the row's luma scan. |
| RobotProperties.RowFirstChroma | encoders/robot.ts:59-70 | The luma scan is followed by a chroma segment. In Robot 36, even rows get the even separation tone (1500 Hz) and U, odd rows the odd separation tone (2300 Hz) and V. In Robot 72, every row gets the even separation tone and U. Then come the chroma porch and the chroma scan. A Robot 36 row ends there and a Robot 72 row does not. |
| RobotProperties.SegmentAfterLuma | encoders/robot.ts:63-65 | In a row, the separation tone, the chroma porch and the chroma scan sit right after the luma scan, whatever follows. |
| RobotProperties.RowSecondChroma | encoders/robot.ts:72-75 | A Robot 72 row closes with the even separation tone, the chroma porch and the V scan. Its length is 6 + ny + 2*nuv. |
| RobotProperties.RowToneCounts | encoders/robot.ts:54-76 | A row carries exactly one sync pulse and one sync porch. A Robot 36 row also carries one separation tone (even or odd by the row's parity, never both) and one chroma porch. A Robot 72 row carries two even separation tones, no odd one, and two chroma porches. Every call of a row is a sample. |
| RobotProperties.Robot36ToneCounts | encoders/robot.ts:59-65 | Gives the tone counts of a Robot 36 row by parity. |
| RobotProperties.OneChromaCounts | encoders/robot.ts:54-65 | A row with one chroma segment carries each of its four structural tones once and no other separation tone. |
| RobotProperties.Robot72ToneCounts | encoders/robot.ts:66-76 | Gives the tone counts of a Robot 72 row. |
| RobotProperties.TwoChromaCounts | encoders/robot.ts:54-76 | A row with two chroma segments carries two separation tones and two chroma porches. |
| RobotProperties.TonesAmongScans | encoders/robot.ts:38-41 | Scans add no timed tone to a row's tone counts. |
| RobotProperties.RowCallsAreSamples | encoders/robot.ts:54-76 | No call of a row is a header. |
| RobotProperties.EncodedRowIsRowTrace | encoders/robot.ts:43-52 | Row y sent by the encoder is the row trace of image row y's own scans. Those scans have one entry per pixel. |
| RobotProperties.HeaderFirstAndOnly | encoders/robot.ts:7-8 | The first call is the calibration header with code 8 (Robot 36) or 12 (Robot 72). No later call is a header. Exactly one sync pulse is sent per image row. |
| RobotProperties.EncodeTraceLength | encoders/robot.ts:43-77 | The transmission is 1 + height * L calls long, L being the mode's row length. |
| RobotProperties.EncodedRowPosition | encoders/robot.ts:43 | Row y occupies positions 1 + y*L .. 1 + y*L + L, so rows go out whole and top to bottom. |
| RobotProperties.EncodedRowsLength | encoders/robot.ts:54-76 | Every encoded row has the same length L. |
| RobotProperties.LumaSampleOfRow | encoders/robot.ts:49-57 | Luma sample k of row y is `yuv2freq` of the Y of pixel (floor(k*width/ny), y). |
| RobotProperties.FirstChromaSampleOfRow | encoders/robot.ts:59-70 | Chroma sample k of row y's first chroma segment shows pixel (floor(k*width/nuv), y). It shows the U on Robot 36 even rows and on every Robot 72 row, and the V on Robot 36 odd rows. |
| RobotProperties.SecondChromaSampleOfRow | encoders/robot.ts:72-75 | In Robot 72, sample k of the second chroma segment is the V of pixel (floor(k*width/nuv), y). |
| RobotProperties.OnePixelRobot36 | encoders/robot.ts:7-65 | A one-pixel image in Robot 36 at 10 Hz sends exactly seven calls, in order: header 8, sync, sync porch, the pixel's luma, the even separation tone, the 1500 Hz chroma porch and the pixel's U. |
| RobotProperties.SingleSampleScan | encoders/robot.ts:38-40 | A scan whose sample count n lies in (0, 1] sends the pixel of a one-pixel line exactly once. |
| RobotProperties.OnePixelScans | encoders/robot.ts:47-51 | A one-pixel, three-channel image's scans hold exactly `yuv2freq` of that pixel's Y, U and V. |
| RobotProperties.ScansReadOnlyOwnRow | encoders/robot.ts:48-51 | Row y's scans depend only on row y's stretch of the buffer: two same-shaped images that agree there give equal scans. |

## Left out

- `resizeImage` and `objectFit` (`encoders/robot.ts:5`): resizing goes through an external image library. The model starts from the image after the optional resize.
- `img.raw().toBuffer(...)` (`encoders/robot.ts:10`): asynchronous decoding is not modelled. The decoded buffer, width, height and channel count come in as the `Image` argument. Because the header is sent before decoding, a failure to decode is also out of scope.
- `rgb2yuv` and `yuv2freq` (`encoders/robot.ts:2`, `50-51`): their bodies are not part of this model. They are arbitrary total functions passed in a `ColorMapper`, and `for (const c in yuv)` is modelled as the three channels Y, U, V in that order.
- Audio rendering inside `sample` and `sampleCalibrationHeader`: the sink only records the calls it receives.
- IEEE-754 arithmetic: sample counts, scales and indices use exact reals, so rounding in `sampleRate * duration / 1000` and `scale * i` is not modelled.
- Robot.RobotEncode: for Robot 36 and Robot 72 only, requires `width > 0`. With no pixels, `scanLine` reads `line[0]` of an empty array and JavaScript sends `undefined` as the frequency, and the model has no undefined frequency.
- Robot.RobotEncode: for Robot 36 and Robot 72 only, requires at least three channels and a buffer of at least `width * height * channels` bytes. With fewer channels the source reads other pixels' bytes, or reads past the buffer, where JavaScript gives `undefined`.
- Robot.RobotEncode: for Robot 36 and Robot 72 only, requires a positive sample rate. At a rate of zero or below the source sends no scan samples, and at exactly zero its scales divide by zero. The model leaves both cases out. The rejection of other modes holds for every image and every rate.
- The exception is modelled as the outcome `Failed("Invalid ROBOT mode")` rather than a thrown error, and the promise of the async function is not modelled.
- Robot.ModeTiming: its contract gives the porch frequency only as lying in [1500, 2300). The exact durations and frequencies (88/44 ms and 1500 Hz for Robot 36, 138/69 ms and 1900 Hz for Robot 72) are its definition, and `RobotEncode` is proved to use those same values.
