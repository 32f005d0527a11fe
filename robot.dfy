/** The Robot 36 / Robot 72 SSTV scan-line encoder: for a decoded pixel
    buffer it sends the calibration header and then, row by row, the sync,
    porch, separation and resampled colour-scan tones to the sample sink. */
module Robot {
  import opened Wrappers
  import opened Sink
  import opened Blocks

  newtype byte = x: int | 0 <= x < 256

  /** The requested SSTV mode; `Other` stands for every mode of the
      encoder's mode enumeration that is not a Robot variant. */
  datatype Mode = Robot36 | Robot72 | Other(id: nat)

  /** A decoded image: row-major pixels of `channels` bytes each. */
  datatype Image = Image(data: seq<byte>, width: nat, height: nat, channels: nat) {
    predicate Valid() {
      width > 0 && channels >= 3 && |data| >= width * height * channels
    }
  }

  /** A pixel's colour in the luma / chroma domain. */
  datatype Yuv = Yuv(y: real, u: real, v: real)

  /** The colour conversions the encoder delegates to its utility library. */
  datatype ColorMapper = ColorMapper(rgb2yuv: (byte, byte, byte) -> Yuv, yuv2freq: real -> real)

  /** A (frequency Hz, duration ms) pair sent to the sink as one tone. */
  datatype SampleTuple = SampleTuple(freq: real, ms: real)

  /** Per-mode parameters: luma scan and chroma scan durations (ms) and the
      frequency of the porch that precedes each chroma scan. */
  datatype Timing = Timing(yScanMs: real, uvScanMs: real, porchFreq: real)

  /** Row parity, which selects the chroma channel in Robot 36. */
  datatype Parity = Even | Odd

  /** The frequency triples of one row: luma, U and V, one entry per pixel. */
  datatype ScanTriple = ScanTriple(luma: seq<real>, u: seq<real>, v: seq<real>)

  datatype Outcome = Done | Failed(message: string)

  const InvalidModeMessage := "Invalid ROBOT mode"

  // ---------------------------------------------------------------------
  // Mode table and structural tones

  /** The mode table; `None` for every mode that is not a Robot variant. */
  function ModeTiming(m: Mode): (r: Option<Timing>)
    ensures r.Some? <==> m.Robot36? || m.Robot72?
    // each chroma scan lasts exactly half a luma scan
    ensures r.Some? ==> r.value.uvScanMs * 2.0 == r.value.yScanMs
    ensures r.Some? ==> 1500.0 <= r.value.porchFreq < 2300.0
  {
    match m
    case Robot36 => Some(Timing(88.0, 44.0, 1500.0))
    case Robot72 => Some(Timing(138.0, 69.0, 1900.0))
    case Other(_) => None
  }

  /** The VIS code passed to the calibration header; there is one exactly
      for the modes the mode table accepts, and the two differ. */
  function VisCode(m: Mode): (r: Option<int>)
    ensures r.Some? <==> ModeTiming(m).Some?
    ensures r.Some? ==> (r.value == 8 <==> m.Robot36?)
    ensures m.Robot72? ==> r == Some(12)
  {
    match m
    case Robot36 => Some(8)
    case Robot72 => Some(12)
    case Other(_) => None
  }

  const SyncPulse := SampleTuple(1200.0, 9.0)
  const SyncPorch := SampleTuple(1500.0, 3.0)
  const SeparationPulse := SampleTuple(1500.0, 4.5)
  const OddSeparationPulse := SampleTuple(2300.0, 4.5)

  /** The chroma porch: whatever its frequency, its 1.5 ms tell it apart
      from every other structural tone. */
  function Porch(porchFreq: real): (r: SampleTuple)
    ensures r.freq == porchFreq
    ensures Emit(r) != Emit(SyncPulse) && Emit(r) != Emit(SyncPorch)
    ensures Emit(r) != Emit(SeparationPulse) && Emit(r) != Emit(OddSeparationPulse)
  {
    SampleTuple(porchFreq, 1.5)
  }

  /** The sink call made by `sample(...tuple)`: a timed sample, unlike the
      untimed scan samples. */
  function Emit(t: SampleTuple): (r: SinkCall)
    ensures r.SampleCall? && r.freq == t.freq && r.ms.Some?
  {
    SampleCall(t.freq, Some(t.ms))
  }

  /** The four fixed structural tones are four different sink calls, so a
      receiver can tell each of them from the others. */
  lemma StructuralTonesDistinct()
    ensures var tones := [SyncPulse, SyncPorch, SeparationPulse, OddSeparationPulse];
            forall i, j :: 0 <= i < j < |tones| ==> Emit(tones[i]) != Emit(tones[j])
  {
  }

  /** Row parity alternates from one row to the next, starting even. */
  function ParityOf(y: nat): (r: Parity)
    ensures r == Even <==> y % 2 == 0
    ensures y > 0 ==> r != ParityOf(y - 1)
  {
    if y % 2 == 0 then Even else Odd
  }

  // ---------------------------------------------------------------------
  // Nearest-neighbour resampler

  /** Number of scan samples a resampler loop `for i = 0; i < n; ++i` emits:
      the least natural number not below `n`. */
  function SampleCount(n: real): (c: nat)
    ensures n <= 0.0 ==> c == 0
    ensures n > 0.0 ==> (c - 1) as real < n <= c as real
  {
    if n <= 0.0 then 0 else -((-n).Floor)
  }

  /** The pixel index `floor(scale * i)`, `scale = width / n`, read by the
      `i`-th sample of a scan of `n` samples; it always lies in the line. */
  function ScanIndex(width: nat, n: real, i: int): (k: nat)
    requires width > 0 && n > 0.0 && 0 <= i < SampleCount(n)
    ensures k < width
  {
    var scale := width as real / n;
    assert scale * (i as real) < width as real by {
      assert (i as real) < n;
      assert scale > 0.0;
      MulStrict(scale, i as real, n);
      assert scale * n == width as real;
    }
    (scale * (i as real)).Floor
  }

  /** The first `k` samples a resampler loop over `line` emits. */
  function Resample(line: seq<real>, n: real, k: nat): (r: seq<SinkCall>)
    requires |line| > 0 && n > 0.0 && k <= SampleCount(n)
    ensures |r| == k
  {
    if k == 0 then [] else Resample(line, n, k - 1) + [SampleCall(line[ScanIndex(|line|, n, k - 1)], None)]
  }

  /** Sample i of a scan is the pixel at index floor(i * width / n). */
  lemma {:induction false} ResampleAt(line: seq<real>, n: real, k: nat, i: nat)
    requires |line| > 0 && n > 0.0 && k <= SampleCount(n) && i < k
    ensures Resample(line, n, k)[i] == SampleCall(line[ScanIndex(|line|, n, i)], None)
  {
    if i < k - 1 {
      ResampleAt(line, n, k - 1, i);
    }
  }

  /** Everything one scan of `line` over `n` samples sends to the sink. */
  function ScanSamples(line: seq<real>, n: real): (r: seq<SinkCall>)
    requires |line| > 0 && n > 0.0
    ensures |r| == SampleCount(n)
  {
    Resample(line, n, SampleCount(n))
  }

  // ---------------------------------------------------------------------
  // Colour scans of one row

  /** The offset `(y * width + x) * channels` of pixel (x, y): the start of
      row y's stretch plus x pixels into it. */
  function PixelOffset(img: Image, y: nat, x: nat): (o: nat)
    ensures o == y * img.width * img.channels + x * img.channels
  {
    MulAddRight(y * img.width, x, img.channels);
    MulNonNegative(y * img.width + x, img.channels);
    (y * img.width + x) * img.channels
  }

  /** The three bytes of pixel (x, y) lie inside row y's stretch of the
      buffer, which starts at y*width*channels and spans width*channels bytes. */
  lemma PixelInRow(img: Image, y: nat, x: nat)
    requires img.Valid() && y < img.height && x < img.width
    ensures PixelOffset(img, y, x) == y * img.width * img.channels + x * img.channels
    ensures 0 <= x * img.channels && x * img.channels + 2 < img.width * img.channels
    ensures 0 <= y * img.width * img.channels
    ensures (y + 1) * img.width * img.channels == y * img.width * img.channels + img.width * img.channels
    ensures (y + 1) * img.width * img.channels <= |img.data|
  {
    var w, h, ch := img.width, img.height, img.channels;
    MulNonNegative(x, ch);
    MulNonNegative(y, w);
    MulNonNegative(y * w, ch);
    MulAddRight(y * w, x, ch);
    MulMonotone(x + 1, w, ch);
    MulAddRight(x, 1, ch);
    MulAddRight(y, 1, w);
    MulAddRight(y * w, w, ch);
    MulMonotone(y + 1, h, w);
    MulMonotone((y + 1) * w, h * w, ch);
    MulSwap(h, w, ch);
  }

  /** Row y's stretch of the pixel buffer. */
  function RowBytes(img: Image, y: nat): (r: seq<byte>)
    requires img.Valid() && y < img.height
    ensures |r| == img.width * img.channels
  {
    PixelInRow(img, y, 0);
    img.data[y * img.width * img.channels .. (y + 1) * img.width * img.channels]
  }

  /** The bytes of pixel (x, y) are bytes x*channels .. x*channels+2 of row
      y's stretch of the buffer. */
  lemma PixelFromRowBytes(img: Image, y: nat, x: nat)
    requires img.Valid() && y < img.height && x < img.width
    ensures var o, j := PixelOffset(img, y, x), x * img.channels;
            0 <= j && j + 2 < |RowBytes(img, y)| && o + 2 < |img.data| &&
            RowBytes(img, y)[j] == img.data[o] &&
            RowBytes(img, y)[j + 1] == img.data[o + 1] &&
            RowBytes(img, y)[j + 2] == img.data[o + 2]
  {
    PixelInRow(img, y, x);
  }

  /** The colour of pixel (x, y): `rgb2yuv` of bytes x*channels ..
      x*channels+2 of row y's stretch of the buffer. */
  function PixelYuv(img: Image, cm: ColorMapper, y: nat, x: nat): (r: Yuv)
    requires img.Valid() && y < img.height && x < img.width
    ensures var row, j := RowBytes(img, y), x * img.channels;
            0 <= j && j + 2 < |row| && r == cm.rgb2yuv(row[j], row[j + 1], row[j + 2])
  {
    PixelInRow(img, y, x);
    PixelFromRowBytes(img, y, x);
    var o := PixelOffset(img, y, x);
    cm.rgb2yuv(img.data[o], img.data[o + 1], img.data[o + 2])
  }

  /** The colour of pixel (x, y) as the encoder reads it, at offset
      `(y * width + x) * channels` of the buffer. */
  lemma PixelYuvAtOffset(img: Image, cm: ColorMapper, y: nat, x: nat)
    requires img.Valid() && y < img.height && x < img.width
    ensures var o := (y * img.width + x) * img.channels;
            0 <= o && o + 2 < |img.data| &&
            PixelYuv(img, cm, y, x) == cm.rgb2yuv(img.data[o], img.data[o + 1], img.data[o + 2])
  {
    PixelInRow(img, y, x);
  }

  /** The scans of row y after its first k pixels have been converted. */
  function ScansPrefix(img: Image, cm: ColorMapper, y: nat, k: nat): (s: ScanTriple)
    requires img.Valid() && y < img.height && k <= img.width
    ensures |s.luma| == |s.u| == |s.v| == k
  {
    if k == 0 then ScanTriple([], [], [])
    else
      var s := ScansPrefix(img, cm, y, k - 1);
      var p := PixelYuv(img, cm, y, k - 1);
      ScanTriple(s.luma + [cm.yuv2freq(p.y)], s.u + [cm.yuv2freq(p.u)], s.v + [cm.yuv2freq(p.v)])
  }

  /** Entry x of each scan is the frequency of pixel (x, y)'s luma, U or V. */
  lemma {:induction false} ScansPrefixAt(img: Image, cm: ColorMapper, y: nat, k: nat, x: nat)
    requires img.Valid() && y < img.height && k <= img.width && x < k
    ensures ScansPrefix(img, cm, y, k).luma[x] == cm.yuv2freq(PixelYuv(img, cm, y, x).y)
    ensures ScansPrefix(img, cm, y, k).u[x] == cm.yuv2freq(PixelYuv(img, cm, y, x).u)
    ensures ScansPrefix(img, cm, y, k).v[x] == cm.yuv2freq(PixelYuv(img, cm, y, x).v)
  {
    if x < k - 1 {
      ScansPrefixAt(img, cm, y, k - 1, x);
    }
  }

  /** The scan triple of row y: every pixel of the row, in order. */
  function RowScans(img: Image, cm: ColorMapper, y: nat): (s: ScanTriple)
    requires img.Valid() && y < img.height
    ensures |s.luma| == |s.u| == |s.v| == img.width
  {
    ScansPrefix(img, cm, y, img.width)
  }

  // ---------------------------------------------------------------------
  // Row layout and the whole trace

  /** The (possibly fractional) number of luma samples a scan of
      `yScanMs` takes at `sampleRate`; positive for a positive rate. */
  function LumaSamples(t: Timing, sampleRate: real): (n: real)
    ensures sampleRate > 0.0 && t.yScanMs > 0.0 ==> n > 0.0
  {
    if sampleRate > 0.0 && t.yScanMs > 0.0 then MulStrict(sampleRate, 0.0, t.yScanMs / 1000.0); sampleRate * (t.yScanMs / 1000.0)
    else sampleRate * (t.yScanMs / 1000.0)
  }

  /** The number of chroma samples; half the luma samples when a chroma
      scan lasts half a luma scan, as in both Robot modes. */
  function ChromaSamples(t: Timing, sampleRate: real): (n: real)
    ensures sampleRate > 0.0 && t.uvScanMs > 0.0 ==> n > 0.0
    ensures t.uvScanMs * 2.0 == t.yScanMs ==> n * 2.0 == LumaSamples(t, sampleRate)
  {
    if sampleRate > 0.0 && t.uvScanMs > 0.0 then MulStrict(sampleRate, 0.0, t.uvScanMs / 1000.0); sampleRate * (t.uvScanMs / 1000.0)
    else sampleRate * (t.uvScanMs / 1000.0)
  }

  predicate IsRobot(m: Mode) {
    m.Robot36? || m.Robot72?
  }

  /** The number of sink calls every row sends, given the (possibly
      fractional) luma and chroma sample counts. */
  function RowLength(m: Mode, ySamples: real, uvSamples: real): (r: nat)
    ensures r >= 4 + SampleCount(ySamples) + SampleCount(uvSamples)
    // only a Robot 36 row ends after its first chroma segment
    ensures m.Robot36? <==> r == 4 + SampleCount(ySamples) + SampleCount(uvSamples)
  {
    var ny, nuv := SampleCount(ySamples), SampleCount(uvSamples);
    if m.Robot36? then 4 + ny + nuv else 6 + ny + 2 * nuv
  }

  predicate ValidScans(s: ScanTriple) {
    |s.luma| > 0 && |s.u| > 0 && |s.v| > 0
  }

  /** A chroma segment: a separation tone, the chroma porch, then the scan. */
  function ChromaSegment(separation: SampleTuple, porch: SampleTuple, uvSamples: real, line: seq<real>): (r: seq<SinkCall>)
    requires uvSamples > 0.0 && |line| > 0
    ensures |r| == 2 + SampleCount(uvSamples) && r[0] == Emit(separation) && r[1] == Emit(porch)
  {
    [Emit(separation), Emit(porch)] + ScanSamples(line, uvSamples)
  }

  /** What the encoder sends for row y, given that row's scans. */
  function RowTrace(m: Mode, porch: SampleTuple, ySamples: real, uvSamples: real, s: ScanTriple, y: nat): (r: seq<SinkCall>)
    requires IsRobot(m) && ySamples > 0.0 && uvSamples > 0.0 && ValidScans(s)
    ensures |r| == RowLength(m, ySamples, uvSamples)
  {
    [Emit(SyncPulse), Emit(SyncPorch)] + ScanSamples(s.luma, ySamples) +
    if m.Robot36? then
      match ParityOf(y)
      case Even => ChromaSegment(SeparationPulse, porch, uvSamples, s.u)
      case Odd => ChromaSegment(OddSeparationPulse, porch, uvSamples, s.v)
    else
      ChromaSegment(SeparationPulse, porch, uvSamples, s.u) + ChromaSegment(SeparationPulse, porch, uvSamples, s.v)
  }

  /** The scans of rows 0 .. n-1, in order. */
  function ImageScans(img: Image, cm: ColorMapper, n: nat): (r: seq<ScanTriple>)
    requires img.Valid() && n <= img.height
    ensures |r| == n
  {
    seq(n, y requires 0 <= y < n => RowScans(img, cm, y))
  }

  predicate AllValidScans(scans: seq<ScanTriple>) {
    forall y :: 0 <= y < |scans| ==> ValidScans(scans[y])
  }

  /** What the encoder sends for each of the rows whose scans are `scans`,
      row y being `scans[y]`. */
  function RowTraces(m: Mode, porch: SampleTuple, ySamples: real, uvSamples: real, scans: seq<ScanTriple>): (r: seq<seq<SinkCall>>)
    requires IsRobot(m) && ySamples > 0.0 && uvSamples > 0.0 && AllValidScans(scans)
    ensures |r| == |scans|
  {
    seq(|scans|, y requires 0 <= y < |scans| => RowTrace(m, porch, ySamples, uvSamples, scans[y], y))
  }

  lemma ImageScansSnoc(img: Image, cm: ColorMapper, n: nat)
    requires img.Valid() && n < img.height
    ensures ImageScans(img, cm, n + 1) == ImageScans(img, cm, n) + [RowScans(img, cm, n)]
  {
    var a, b := ImageScans(img, cm, n + 1), ImageScans(img, cm, n) + [RowScans(img, cm, n)];
    forall y | 0 <= y < n + 1
      ensures a[y] == b[y]
    {
    }
  }

  lemma RowTracesSnoc(m: Mode, porch: SampleTuple, ySamples: real, uvSamples: real, scans: seq<ScanTriple>, s: ScanTriple)
    requires IsRobot(m) && ySamples > 0.0 && uvSamples > 0.0 && AllValidScans(scans) && ValidScans(s)
    ensures AllValidScans(scans + [s])
    ensures RowTraces(m, porch, ySamples, uvSamples, scans + [s])
         == RowTraces(m, porch, ySamples, uvSamples, scans) + [RowTrace(m, porch, ySamples, uvSamples, s, |scans|)]
  {
    var n := |scans|;
    assert AllValidScans(scans + [s]) by {
      forall y | 0 <= y < n + 1
        ensures ValidScans((scans + [s])[y])
      {
        if y < n {
          assert (scans + [s])[y] == scans[y];
        }
      }
    }
    var a := RowTraces(m, porch, ySamples, uvSamples, scans + [s]);
    var b := RowTraces(m, porch, ySamples, uvSamples, scans) + [RowTrace(m, porch, ySamples, uvSamples, s, n)];
    forall y | 0 <= y < n + 1
      ensures a[y] == b[y]
    {
      if y < n {
        assert (scans + [s])[y] == scans[y];
      }
    }
  }

  /** The chroma porch, luma sample count and chroma sample count of mode m. */
  function ModePorch(m: Mode): SampleTuple
    requires IsRobot(m)
  {
    Porch(ModeTiming(m).value.porchFreq)
  }

  function ModeLumaSamples(m: Mode, sampleRate: real): (n: real)
    requires IsRobot(m) && sampleRate > 0.0
    ensures n > 0.0
  {
    LumaSamples(ModeTiming(m).value, sampleRate)
  }

  function ModeChromaSamples(m: Mode, sampleRate: real): (n: real)
    requires IsRobot(m) && sampleRate > 0.0
    ensures n > 0.0
  {
    ChromaSamples(ModeTiming(m).value, sampleRate)
  }

  /** What a successful encode at `sampleRate` sends for each image row,
      with the mode's porch tone and sample counts. */
  function EncodedRows(m: Mode, sampleRate: real, img: Image, cm: ColorMapper): (r: seq<seq<SinkCall>>)
    requires IsRobot(m) && sampleRate > 0.0 && img.Valid()
    ensures |r| == img.height
  {
    RowTraces(m, ModePorch(m), ModeLumaSamples(m, sampleRate), ModeChromaSamples(m, sampleRate), ImageScans(img, cm, img.height))
  }

  /** Everything a successful encode sends: the header, then every row. */
  function EncodeTrace(m: Mode, sampleRate: real, img: Image, cm: ColorMapper): (r: seq<SinkCall>)
    requires IsRobot(m) && sampleRate > 0.0 && img.Valid()
    ensures |r| == 1 + |Concat(EncodedRows(m, sampleRate, img, cm))|
    ensures r[0] == HeaderCall(if m.Robot36? then 8 else 12)
  {
    [HeaderCall(VisCode(m).value)] + Concat(EncodedRows(m, sampleRate, img, cm))
  }

  // ---------------------------------------------------------------------
  // The encoder

  /** Sends `line` resampled to `nSamples` samples, nearest neighbour. */
  method ScanLine(encoder: Encoder, line: seq<real>, nSamples: real, scale: real)
    requires |line| > 0 && nSamples > 0.0 && scale == |line| as real / nSamples
    modifies encoder
    ensures encoder.log == old(encoder.log) + ScanSamples(line, nSamples)
  {
    var i := 0;
    while (i as real) < nSamples
      invariant 0 <= i <= SampleCount(nSamples)
      invariant encoder.log == old(encoder.log) + Resample(line, nSamples, i)
      decreases SampleCount(nSamples) - i
    {
      var k := (scale * (i as real)).Floor;
      assert k == ScanIndex(|line|, nSamples, i);
      encoder.Sample(line[k], None);
      i := i + 1;
    }
  }

  /** Converts every pixel of row y into its luma, U and V frequencies. */
  method ScanRow(img: Image, cm: ColorMapper, y: nat) returns (s: ScanTriple)
    requires img.Valid() && y < img.height
    ensures s == RowScans(img, cm, y)
  {
    s := ScanTriple([], [], []);
    var x := 0;
    while x < img.width
      invariant 0 <= x <= img.width
      invariant s == ScansPrefix(img, cm, y, x)
    {
      PixelYuvAtOffset(img, cm, y, x);
      var offset := (y * img.width + x) * img.channels;
      var yuv := cm.rgb2yuv(img.data[offset], img.data[offset + 1], img.data[offset + 2]);
      assert yuv == PixelYuv(img, cm, y, x);
      s := ScanTriple(s.luma + [cm.yuv2freq(yuv.y)], s.u + [cm.yuv2freq(yuv.u)], s.v + [cm.yuv2freq(yuv.v)]);
      x := x + 1;
    }
  }

  /** Sends one row: sync, sync porch, the luma scan, then the chroma
      segment(s) the mode and the row's parity call for. */
  method EmitRow(encoder: Encoder, selectedMode: Mode, porch: SampleTuple,
                 ySamples: real, yScale: real, uvSamples: real, uvScale: real,
                 yuvScans: ScanTriple, y: nat)
    requires IsRobot(selectedMode) && ValidScans(yuvScans)
    requires |yuvScans.luma| == |yuvScans.u| == |yuvScans.v|
    requires ySamples > 0.0 && yScale == |yuvScans.luma| as real / ySamples
    requires uvSamples > 0.0 && uvScale == |yuvScans.luma| as real / uvSamples
    modifies encoder
    ensures encoder.log == old(encoder.log) + RowTrace(selectedMode, porch, ySamples, uvSamples, yuvScans, y)
  {
    var isEven := y % 2 == 0;
    encoder.Sample(SyncPulse.freq, Some(SyncPulse.ms));
    encoder.Sample(SyncPorch.freq, Some(SyncPorch.ms));
    ScanLine(encoder, yuvScans.luma, ySamples, yScale);
    ghost var lead := [Emit(SyncPulse), Emit(SyncPorch)] + ScanSamples(yuvScans.luma, ySamples);
    assert encoder.log == old(encoder.log) + lead;

    ghost var chroma: seq<SinkCall>;
    if selectedMode == Robot36 {
      var separation := if isEven then SeparationPulse else OddSeparationPulse;
      var line := if isEven then yuvScans.u else yuvScans.v;
      SendChroma(encoder, separation, porch, line, uvSamples, uvScale);
      chroma := ChromaSegment(separation, porch, uvSamples, line);
    } else if selectedMode == Robot72 {
      SendChroma(encoder, SeparationPulse, porch, yuvScans.u, uvSamples, uvScale);
      SendChroma(encoder, SeparationPulse, porch, yuvScans.v, uvSamples, uvScale);
      chroma := ChromaSegment(SeparationPulse, porch, uvSamples, yuvScans.u)
              + ChromaSegment(SeparationPulse, porch, uvSamples, yuvScans.v);
      AppendAssoc(old(encoder.log) + lead, ChromaSegment(SeparationPulse, porch, uvSamples, yuvScans.u),
                  ChromaSegment(SeparationPulse, porch, uvSamples, yuvScans.v));
    }
    assert encoder.log == (old(encoder.log) + lead) + chroma;
    assert RowTrace(selectedMode, porch, ySamples, uvSamples, yuvScans, y) == lead + chroma;
    AppendAssoc(old(encoder.log), lead, chroma);
  }

  /** Sends one chroma segment: separation tone, porch, then the scan. */
  method SendChroma(encoder: Encoder, separation: SampleTuple, porch: SampleTuple,
                    line: seq<real>, uvSamples: real, uvScale: real)
    requires |line| > 0 && uvSamples > 0.0 && uvScale == |line| as real / uvSamples
    modifies encoder
    ensures encoder.log == old(encoder.log) + ChromaSegment(separation, porch, uvSamples, line)
  {
    encoder.Sample(separation.freq, Some(separation.ms));
    encoder.Sample(porch.freq, Some(porch.ms));
    ScanLine(encoder, line, uvSamples, uvScale);
  }

  /** Encodes `img` in `selectedMode` into `encoder`. A mode other than the
      two Robot variants fails before anything is sent. */
  method RobotEncode(selectedMode: Mode, img: Image, cm: ColorMapper, encoder: Encoder) returns (outcome: Outcome)
    requires IsRobot(selectedMode) ==> img.Valid() && encoder.sampleRate > 0.0
    modifies encoder
    ensures ModeTiming(selectedMode).None? ==>
              outcome == Failed(InvalidModeMessage) && encoder.log == old(encoder.log)
    ensures ModeTiming(selectedMode).Some? ==>
              outcome == Done &&
              encoder.log == old(encoder.log) + EncodeTrace(selectedMode, encoder.sampleRate, img, cm)
  {
    if selectedMode == Robot36 {
      encoder.SampleCalibrationHeader(8);
    } else if selectedMode == Robot72 {
      encoder.SampleCalibrationHeader(12);
    }

    var yScanDuration: real, uvScanDuration: real, porchFreq: real;
    if selectedMode == Robot36 {
      yScanDuration, uvScanDuration, porchFreq := 88.0, 44.0, 1500.0;
    } else if selectedMode == Robot72 {
      yScanDuration, uvScanDuration, porchFreq := 138.0, 69.0, 1900.0;
    } else {
      return Failed(InvalidModeMessage);
    }
    ghost var t := ModeTiming(selectedMode).value;
    assert t == Timing(yScanDuration, uvScanDuration, porchFreq);
    ghost var start := old(encoder.log) + [HeaderCall(VisCode(selectedMode).value)];
    assert encoder.log == start;

    var porch := Porch(porchFreq);
    var ySamples := encoder.sampleRate * (yScanDuration / 1000.0);
    var yScale := img.width as real / ySamples;
    var uvSamples := encoder.sampleRate * (uvScanDuration / 1000.0);
    var uvScale := img.width as real / uvSamples;
    assert ySamples == LumaSamples(t, encoder.sampleRate) && uvSamples == ChromaSamples(t, encoder.sampleRate);

    ghost var rows := Concat(RowTraces(selectedMode, porch, ySamples, uvSamples, ImageScans(img, cm, img.height)));
    assert EncodeTrace(selectedMode, encoder.sampleRate, img, cm) == [HeaderCall(VisCode(selectedMode).value)] + rows;
    EncodeRows(encoder, selectedMode, porch, ySamples, yScale, uvSamples, uvScale, img, cm);
    AppendAssoc(old(encoder.log), [HeaderCall(VisCode(selectedMode).value)], rows);
    outcome := Done;
  }

  /** The row loop: sends rows 0 .. height-1 in order. */
  method EncodeRows(encoder: Encoder, selectedMode: Mode, porch: SampleTuple,
                    ySamples: real, yScale: real, uvSamples: real, uvScale: real,
                    img: Image, cm: ColorMapper)
    requires IsRobot(selectedMode) && img.Valid()
    requires ySamples > 0.0 && yScale == img.width as real / ySamples
    requires uvSamples > 0.0 && uvScale == img.width as real / uvSamples
    modifies encoder
    ensures encoder.log == old(encoder.log) + Concat(RowTraces(selectedMode, porch, ySamples, uvSamples, ImageScans(img, cm, img.height)))
  {
    var y := 0;
    while y < img.height
      invariant 0 <= y <= img.height
      invariant encoder.log == old(encoder.log) + Concat(RowTraces(selectedMode, porch, ySamples, uvSamples, ImageScans(img, cm, y)))
    {
      var yuvScans := ScanRow(img, cm, y);
      assert |yuvScans.luma| == |yuvScans.u| == |yuvScans.v| == img.width;
      ghost var done := RowTraces(selectedMode, porch, ySamples, uvSamples, ImageScans(img, cm, y));
      EmitRow(encoder, selectedMode, porch, ySamples, yScale, uvSamples, uvScale, yuvScans, y);
      ghost var row := RowTrace(selectedMode, porch, ySamples, uvSamples, yuvScans, y);
      assert encoder.log == (old(encoder.log) + Concat(done)) + row;
      ImageScansSnoc(img, cm, y);
      RowTracesSnoc(selectedMode, porch, ySamples, uvSamples, ImageScans(img, cm, y), yuvScans);
      ConcatAppend(done, [row]);
      assert Concat([row]) == row by {
        assert [row][..0] == [];
      }
      AppendAssoc(old(encoder.log), Concat(done), row);
      y := y + 1;
    }
  }
}
