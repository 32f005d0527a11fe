/** What the Robot encoder's output promises a receiver: the layout of every
    row, how many of each structural tone a row carries, where each row sits
    in the whole transmission, which pixels each scan sample shows, and that
    the calibration header comes first and only once. */
module RobotProperties {
  import opened Wrappers
  import opened Sink
  import opened Blocks
  import opened Robot

  // ---------------------------------------------------------------------
  // Scans

  /** A scan sends untimed samples only: no header and no structural tone. */
  lemma ScanSamplesAreUntimed(line: seq<real>, n: real)
    requires |line| > 0 && n > 0.0
    ensures forall e :: e in ScanSamples(line, n) ==> e.SampleCall? && e.ms.None?
  {
    forall e | e in ScanSamples(line, n)
      ensures e.SampleCall? && e.ms.None?
    {
      var i :| 0 <= i < |ScanSamples(line, n)| && ScanSamples(line, n)[i] == e;
      ResampleAt(line, n, SampleCount(n), i);
    }
  }

  /** Four pixels squeezed into two samples show pixels 0 and 2. */
  lemma ResampleFourIntoTwo(v0: real, v1: real, v2: real, v3: real)
    ensures ScanSamples([v0, v1, v2, v3], 2.0) == [SampleCall(v0, None), SampleCall(v2, None)]
  {
    var line := [v0, v1, v2, v3];
    assert SampleCount(2.0) == 2;
    assert ScanIndex(4, 2.0, 0) == 0;
    assert ScanIndex(4, 2.0, 1) == 2 by {
      assert (4.0 / 2.0) * 1.0 == 2.0;
    }
    ResampleAt(line, 2.0, 2, 0);
    ResampleAt(line, 2.0, 2, 1);
  }

  /** A one-pixel line is repeated for every sample of the scan. */
  lemma SinglePixelScan(v: real, n: real, i: nat)
    requires n > 0.0 && i < SampleCount(n)
    ensures ScanSamples([v], n)[i] == SampleCall(v, None)
  {
    ResampleAt([v], n, SampleCount(n), i);
  }

  // ---------------------------------------------------------------------
  // One row

  /** A row opens with the sync pulse, the sync porch and the luma scan. */
  lemma RowStart(m: Mode, porch: SampleTuple, ny: real, nuv: real, s: ScanTriple, y: nat)
    requires IsRobot(m) && ny > 0.0 && nuv > 0.0 && ValidScans(s)
    ensures var r, a := RowTrace(m, porch, ny, nuv, s, y), SampleCount(ny);
            2 + a <= |r| && r[0] == Emit(SyncPulse) && r[1] == Emit(SyncPorch) &&
            r[2 .. 2 + a] == ScanSamples(s.luma, ny)
  {
    var lead := [Emit(SyncPulse), Emit(SyncPorch)] + ScanSamples(s.luma, ny);
    var r := RowTrace(m, porch, ny, nuv, s, y);
    assert r == lead + r[|lead|..];
    SliceOfFront(lead, r[|lead|..], 2, |lead|);
  }

  /** After the luma scan comes the first chroma segment: in Robot 36 the
      even separation tone and the U scan on even rows, the odd separation
      tone and the V scan on odd rows, and nothing after it; in Robot 72 the
      even separation tone and the U scan on every row. The segment's porch
      is the mode's chroma porch. */
  lemma RowFirstChroma(m: Mode, porch: SampleTuple, ny: real, nuv: real, s: ScanTriple, y: nat)
    requires IsRobot(m) && ny > 0.0 && nuv > 0.0 && ValidScans(s)
    ensures var r, a, b := RowTrace(m, porch, ny, nuv, s, y), SampleCount(ny), SampleCount(nuv);
            4 + a + b <= |r| &&
            r[2 + a] == Emit(if m.Robot72? || y % 2 == 0 then SeparationPulse else OddSeparationPulse) &&
            r[3 + a] == Emit(porch) &&
            r[4 + a .. 4 + a + b] == ScanSamples(if m.Robot72? || y % 2 == 0 then s.u else s.v, nuv) &&
            (m.Robot36? <==> |r| == 4 + a + b)
  {
    var sep := if m.Robot72? || y % 2 == 0 then SeparationPulse else OddSeparationPulse;
    var line := if m.Robot72? || y % 2 == 0 then s.u else s.v;
    var rest := if m.Robot36? then [] else ChromaSegment(SeparationPulse, porch, nuv, s.v);
    assert RowTrace(m, porch, ny, nuv, s, y)
        == [Emit(SyncPulse), Emit(SyncPorch)] + ScanSamples(s.luma, ny) + (ChromaSegment(sep, porch, nuv, line) + rest);
    SegmentAfterLuma(porch, ny, nuv, s.luma, sep, line, rest);
  }

  /** Where the pieces of a row whose first chroma segment has separation
      tone `sep` and scan `line` lie, whatever follows that segment. */
  lemma SegmentAfterLuma(porch: SampleTuple, ny: real, nuv: real, luma: seq<real>, sep: SampleTuple,
                         line: seq<real>, rest: seq<SinkCall>)
    requires ny > 0.0 && nuv > 0.0 && |luma| > 0 && |line| > 0
    ensures var r := [Emit(SyncPulse), Emit(SyncPorch)] + ScanSamples(luma, ny) + (ChromaSegment(sep, porch, nuv, line) + rest);
            var a, b := SampleCount(ny), SampleCount(nuv);
            |r| == 4 + a + b + |rest| &&
            r[2 + a] == Emit(sep) && r[3 + a] == Emit(porch) &&
            r[4 + a .. 4 + a + b] == ScanSamples(line, nuv)
  {
    var lead := [Emit(SyncPulse), Emit(SyncPorch)] + ScanSamples(luma, ny);
    var first := ChromaSegment(sep, porch, nuv, line);
    var r := lead + (first + rest);
    assert r[|lead|..] == first + rest;
    assert r[|lead| + 2 .. |lead| + |first|] == first[2..];
  }

  /** In Robot 72 the row closes with a second chroma segment: the even
      separation tone, the chroma porch and the V scan. */
  lemma RowSecondChroma(porch: SampleTuple, ny: real, nuv: real, s: ScanTriple, y: nat)
    requires ny > 0.0 && nuv > 0.0 && ValidScans(s)
    ensures var r, a, b := RowTrace(Robot72, porch, ny, nuv, s, y), SampleCount(ny), SampleCount(nuv);
            |r| == 6 + a + 2 * b &&
            r[4 + a + b] == Emit(SeparationPulse) && r[5 + a + b] == Emit(porch) &&
            r[6 + a + b ..] == ScanSamples(s.v, nuv)
  {
    var r, a, b := RowTrace(Robot72, porch, ny, nuv, s, y), SampleCount(ny), SampleCount(nuv);
    var second := ChromaSegment(SeparationPulse, porch, nuv, s.v);
    assert r == r[..4 + a + b] + second;
    assert r[4 + a + b..] == second;
  }

  /** A row carries exactly one sync pulse and one sync porch; a Robot 36
      row carries one separation tone, even or odd by the row's parity, and
      one chroma porch; a Robot 72 row two even separation tones and two
      chroma porches. Every call of a row is a sample, never a header. */
  lemma RowToneCounts(m: Mode, porch: SampleTuple, ny: real, nuv: real, s: ScanTriple, y: nat)
    requires IsRobot(m) && ny > 0.0 && nuv > 0.0 && ValidScans(s) && porch.ms == 1.5
    ensures var r := multiset(RowTrace(m, porch, ny, nuv, s, y));
            r[Emit(SyncPulse)] == 1 && r[Emit(SyncPorch)] == 1 &&
            r[Emit(SeparationPulse)] == (if m.Robot72? then 2 else if y % 2 == 0 then 1 else 0) &&
            r[Emit(OddSeparationPulse)] == (if m.Robot36? && y % 2 == 1 then 1 else 0) &&
            r[Emit(porch)] == (if m.Robot72? then 2 else 1)
    ensures forall e :: e in RowTrace(m, porch, ny, nuv, s, y) ==> e.SampleCall?
  {
    if m.Robot36? {
      Robot36ToneCounts(porch, ny, nuv, s, y);
    } else {
      Robot72ToneCounts(porch, ny, nuv, s, y);
    }
    RowCallsAreSamples(m, porch, ny, nuv, s, y);
  }

  lemma Robot36ToneCounts(porch: SampleTuple, ny: real, nuv: real, s: ScanTriple, y: nat)
    requires ny > 0.0 && nuv > 0.0 && ValidScans(s) && porch.ms == 1.5
    ensures var r := multiset(RowTrace(Robot36, porch, ny, nuv, s, y));
            r[Emit(SyncPulse)] == 1 && r[Emit(SyncPorch)] == 1 &&
            r[Emit(SeparationPulse)] == (if y % 2 == 0 then 1 else 0) &&
            r[Emit(OddSeparationPulse)] == (if y % 2 == 1 then 1 else 0) &&
            r[Emit(porch)] == 1
  {
    var lead, luma := [Emit(SyncPulse), Emit(SyncPorch)], ScanSamples(s.luma, ny);
    ScanSamplesAreUntimed(s.luma, ny);
    if y % 2 == 0 {
      var u := ScanSamples(s.u, nuv);
      assert RowTrace(Robot36, porch, ny, nuv, s, y) == lead + luma + ([Emit(SeparationPulse), Emit(porch)] + u);
      ScanSamplesAreUntimed(s.u, nuv);
      OneChromaCounts(porch, SeparationPulse, luma, u);
    } else {
      var v := ScanSamples(s.v, nuv);
      assert RowTrace(Robot36, porch, ny, nuv, s, y) == lead + luma + ([Emit(OddSeparationPulse), Emit(porch)] + v);
      ScanSamplesAreUntimed(s.v, nuv);
      OneChromaCounts(porch, OddSeparationPulse, luma, v);
    }
  }

  /** Tone counts of a row with one chroma segment, separation tone `sep`. */
  lemma OneChromaCounts(porch: SampleTuple, sep: SampleTuple, luma: seq<SinkCall>, scan: seq<SinkCall>)
    requires porch.ms == 1.5 && sep.ms == 4.5
    requires forall e :: e in luma + scan ==> e.SampleCall? && e.ms.None?
    ensures var r := multiset([Emit(SyncPulse), Emit(SyncPorch)] + luma + ([Emit(sep), Emit(porch)] + scan));
            r[Emit(SyncPulse)] == 1 && r[Emit(SyncPorch)] == 1 && r[Emit(sep)] == 1 && r[Emit(porch)] == 1 &&
            (forall t: SampleTuple :: t.ms == 4.5 && t != sep ==> r[Emit(t)] == 0)
  {
    var lead, chroma := [Emit(SyncPulse), Emit(SyncPorch)], [Emit(sep), Emit(porch)];
    TonesAmongScans(lead, luma, chroma, scan, [], []);
  }

  lemma Robot72ToneCounts(porch: SampleTuple, ny: real, nuv: real, s: ScanTriple, y: nat)
    requires ny > 0.0 && nuv > 0.0 && ValidScans(s) && porch.ms == 1.5
    ensures var r := multiset(RowTrace(Robot72, porch, ny, nuv, s, y));
            r[Emit(SyncPulse)] == 1 && r[Emit(SyncPorch)] == 1 &&
            r[Emit(SeparationPulse)] == 2 && r[Emit(OddSeparationPulse)] == 0 &&
            r[Emit(porch)] == 2
  {
    var luma, u, v := ScanSamples(s.luma, ny), ScanSamples(s.u, nuv), ScanSamples(s.v, nuv);
    var chroma := [Emit(SeparationPulse), Emit(porch)];
    assert ChromaSegment(SeparationPulse, porch, nuv, s.u) == chroma + u;
    assert ChromaSegment(SeparationPulse, porch, nuv, s.v) == chroma + v;
    assert RowTrace(Robot72, porch, ny, nuv, s, y) == [Emit(SyncPulse), Emit(SyncPorch)] + luma + (chroma + u + (chroma + v));
    ScanSamplesAreUntimed(s.luma, ny);
    ScanSamplesAreUntimed(s.u, nuv);
    ScanSamplesAreUntimed(s.v, nuv);
    TwoChromaCounts(porch, luma, u, v);
  }

  /** Tone counts of a row with two chroma segments after even separation tones. */
  lemma TwoChromaCounts(porch: SampleTuple, luma: seq<SinkCall>, u: seq<SinkCall>, v: seq<SinkCall>)
    requires porch.ms == 1.5
    requires forall e :: e in luma + u + v ==> e.SampleCall? && e.ms.None?
    ensures var chroma := [Emit(SeparationPulse), Emit(porch)];
            var r := multiset([Emit(SyncPulse), Emit(SyncPorch)] + luma + (chroma + u + (chroma + v)));
            r[Emit(SyncPulse)] == 1 && r[Emit(SyncPorch)] == 1 &&
            r[Emit(SeparationPulse)] == 2 && r[Emit(OddSeparationPulse)] == 0 && r[Emit(porch)] == 2
  {
    var lead, chroma := [Emit(SyncPulse), Emit(SyncPorch)], [Emit(SeparationPulse), Emit(porch)];
    TonesAmongScans(lead, luma, chroma, u, chroma, v);
  }

  /** In a row made of tone groups a, b, c and untimed scans s1, s2, s3,
      every timed call counts as in the tone groups alone. */
  lemma TonesAmongScans(a: seq<SinkCall>, s1: seq<SinkCall>, b: seq<SinkCall>, s2: seq<SinkCall>,
                        c: seq<SinkCall>, s3: seq<SinkCall>)
    requires forall e :: e in s1 + s2 + s3 ==> e.SampleCall? && e.ms.None?
    ensures forall t :: multiset(a + s1 + (b + s2 + (c + s3)))[Emit(t)]
                        == multiset(a)[Emit(t)] + multiset(b)[Emit(t)] + multiset(c)[Emit(t)]
    ensures forall t :: multiset(a + s1 + (b + s2))[Emit(t)] == multiset(a)[Emit(t)] + multiset(b)[Emit(t)]
  {
    forall t
      ensures multiset(a + s1 + (b + s2 + (c + s3)))[Emit(t)]
              == multiset(a)[Emit(t)] + multiset(b)[Emit(t)] + multiset(c)[Emit(t)]
      ensures multiset(a + s1 + (b + s2))[Emit(t)] == multiset(a)[Emit(t)] + multiset(b)[Emit(t)]
    {
      assert Emit(t) !in s1 + s2 + s3;
      assert multiset(a + s1 + (b + s2 + (c + s3))) == multiset(a) + multiset(s1) + multiset(b) + multiset(s2) + multiset(c) + multiset(s3);
      assert multiset(a + s1 + (b + s2)) == multiset(a) + multiset(s1) + multiset(b) + multiset(s2);
    }
  }

  /** Every call of a row is a sample, never a header. */
  lemma RowCallsAreSamples(m: Mode, porch: SampleTuple, ny: real, nuv: real, s: ScanTriple, y: nat)
    requires IsRobot(m) && ny > 0.0 && nuv > 0.0 && ValidScans(s)
    ensures forall e :: e in RowTrace(m, porch, ny, nuv, s, y) ==> e.SampleCall?
  {
    ScanSamplesAreUntimed(s.luma, ny);
    ScanSamplesAreUntimed(s.u, nuv);
    ScanSamplesAreUntimed(s.v, nuv);
  }

  // ---------------------------------------------------------------------
  // The whole transmission

  /** Row y of the encoded rows is the row trace of image row y's scans, and
      its scans have one entry per pixel. */
  lemma EncodedRowIsRowTrace(m: Mode, sampleRate: real, img: Image, cm: ColorMapper, y: nat)
    requires IsRobot(m) && sampleRate > 0.0 && img.Valid() && y < img.height
    ensures var s := RowScans(img, cm, y);
            ValidScans(s) && |s.luma| == |s.u| == |s.v| == img.width &&
            EncodedRows(m, sampleRate, img, cm)[y]
              == RowTrace(m, ModePorch(m), ModeLumaSamples(m, sampleRate), ModeChromaSamples(m, sampleRate), s, y)
  {
    assert ImageScans(img, cm, img.height)[y] == RowScans(img, cm, y);
  }

  /** The calibration header, with VIS code 8 for Robot 36 and 12 for
      Robot 72, is the first call and no other call is a header; one sync
      pulse follows for every image row. */
  lemma HeaderFirstAndOnly(m: Mode, sampleRate: real, img: Image, cm: ColorMapper)
    requires IsRobot(m) && sampleRate > 0.0 && img.Valid()
    ensures var trace := EncodeTrace(m, sampleRate, img, cm);
            trace[0] == HeaderCall(if m.Robot36? then 8 else 12) &&
            (forall i :: 1 <= i < |trace| ==> trace[i].SampleCall?) &&
            multiset(trace)[Emit(SyncPulse)] == img.height
  {
    var ny, nuv := ModeLumaSamples(m, sampleRate), ModeChromaSamples(m, sampleRate);
    var rows := EncodedRows(m, sampleRate, img, cm);
    forall y | 0 <= y < |rows|
      ensures multiset(rows[y])[Emit(SyncPulse)] == 1
      ensures forall e: SinkCall :: e in rows[y] ==> e.SampleCall?
    {
      EncodedRowIsRowTrace(m, sampleRate, img, cm, y);
      RowToneCounts(m, ModePorch(m), ny, nuv, RowScans(img, cm, y), y);
    }
    CountOncePerBlock(rows, Emit(SyncPulse));
    var trace := EncodeTrace(m, sampleRate, img, cm);
    forall i | 1 <= i < |trace|
      ensures trace[i].SampleCall?
    {
      assert trace[i] in Concat(rows);
      InConcat(rows, trace[i]);
    }
    assert multiset(trace) == multiset([HeaderCall(VisCode(m).value)]) + multiset(Concat(rows));
  }

  /** The whole transmission is the header and then height rows of the
      mode's row length L each. */
  lemma EncodeTraceLength(m: Mode, sampleRate: real, img: Image, cm: ColorMapper)
    requires IsRobot(m) && sampleRate > 0.0 && img.Valid()
    ensures |EncodeTrace(m, sampleRate, img, cm)|
         == 1 + img.height * RowLength(m, ModeLumaSamples(m, sampleRate), ModeChromaSamples(m, sampleRate))
  {
    EncodedRowsLength(m, sampleRate, img, cm);
    ConcatLength(EncodedRows(m, sampleRate, img, cm), RowLength(m, ModeLumaSamples(m, sampleRate), ModeChromaSamples(m, sampleRate)));
  }

  /** After the header, row y of the image is sent whole at positions
      1 + y*L .. 1 + y*L + L, L being the mode's row length. */
  lemma EncodedRowPosition(m: Mode, sampleRate: real, img: Image, cm: ColorMapper, y: nat)
    requires IsRobot(m) && sampleRate > 0.0 && img.Valid() && y < img.height
    ensures BlockBehindHead(EncodeTrace(m, sampleRate, img, cm), EncodedRows(m, sampleRate, img, cm),
                            RowLength(m, ModeLumaSamples(m, sampleRate), ModeChromaSamples(m, sampleRate)), y)
  {
    var L := RowLength(m, ModeLumaSamples(m, sampleRate), ModeChromaSamples(m, sampleRate));
    var rows := EncodedRows(m, sampleRate, img, cm);
    var head := HeaderCall(VisCode(m).value);
    assert EncodeTrace(m, sampleRate, img, cm) == [head] + Concat(rows);
    EncodedRowsLength(m, sampleRate, img, cm);
    BlockAfterHead(head, rows, L, y);
  }

  /** Every encoded row has the mode's row length. */
  lemma EncodedRowsLength(m: Mode, sampleRate: real, img: Image, cm: ColorMapper)
    requires IsRobot(m) && sampleRate > 0.0 && img.Valid()
    ensures AllLength(EncodedRows(m, sampleRate, img, cm), RowLength(m, ModeLumaSamples(m, sampleRate), ModeChromaSamples(m, sampleRate)))
  {
    var rows := EncodedRows(m, sampleRate, img, cm);
    forall y | 0 <= y < |rows|
      ensures |rows[y]| == RowLength(m, ModeLumaSamples(m, sampleRate), ModeChromaSamples(m, sampleRate))
    {
      EncodedRowIsRowTrace(m, sampleRate, img, cm, y);
    }
  }

  /** The k-th luma sample of row y shows the luma of the pixel of row y at
      column floor(k * width / n), n the luma sample count. */
  lemma LumaSampleOfRow(m: Mode, sampleRate: real, img: Image, cm: ColorMapper, y: nat, k: nat)
    requires IsRobot(m) && sampleRate > 0.0 && img.Valid() && y < img.height
    requires k < SampleCount(ModeLumaSamples(m, sampleRate))
    ensures var ny := ModeLumaSamples(m, sampleRate);
            var row := EncodedRows(m, sampleRate, img, cm)[y];
            2 + k < |row| &&
            row[2 + k] == SampleCall(cm.yuv2freq(PixelYuv(img, cm, y, ScanIndex(img.width, ny, k)).y), None)
  {
    var ny, nuv := ModeLumaSamples(m, sampleRate), ModeChromaSamples(m, sampleRate);
    var s := RowScans(img, cm, y);
    EncodedRowIsRowTrace(m, sampleRate, img, cm, y);
    RowStart(m, ModePorch(m), ny, nuv, s, y);
    ResampleAt(s.luma, ny, SampleCount(ny), k);
    ScansPrefixAt(img, cm, y, img.width, ScanIndex(img.width, ny, k));
  }

  /** The k-th sample after row y's first chroma porch shows, in Robot 36,
      the U of an even row's pixel or the V of an odd row's pixel, and in
      Robot 72 always the U; the pixel is the one of row y at column
      floor(k * width / n), n the chroma sample count. */
  lemma FirstChromaSampleOfRow(m: Mode, sampleRate: real, img: Image, cm: ColorMapper, y: nat, k: nat)
    requires IsRobot(m) && sampleRate > 0.0 && img.Valid() && y < img.height
    requires k < SampleCount(ModeChromaSamples(m, sampleRate))
    ensures var ny, nuv := ModeLumaSamples(m, sampleRate), ModeChromaSamples(m, sampleRate);
            var row := EncodedRows(m, sampleRate, img, cm)[y];
            var pos := 4 + SampleCount(ny) + k;
            var pixel := PixelYuv(img, cm, y, ScanIndex(img.width, nuv, k));
            pos < |row| &&
            row[pos] == SampleCall(cm.yuv2freq(if m.Robot72? || y % 2 == 0 then pixel.u else pixel.v), None)
  {
    var ny, nuv := ModeLumaSamples(m, sampleRate), ModeChromaSamples(m, sampleRate);
    var s := RowScans(img, cm, y);
    var line := if m.Robot72? || y % 2 == 0 then s.u else s.v;
    EncodedRowIsRowTrace(m, sampleRate, img, cm, y);
    RowFirstChroma(m, ModePorch(m), ny, nuv, s, y);
    ResampleAt(line, nuv, SampleCount(nuv), k);
    ScansPrefixAt(img, cm, y, img.width, ScanIndex(img.width, nuv, k));
  }

  /** In Robot 72 the second chroma segment of row y carries V: its k-th
      sample shows the V of the pixel of row y at column floor(k * width / n). */
  lemma SecondChromaSampleOfRow(sampleRate: real, img: Image, cm: ColorMapper, y: nat, k: nat)
    requires sampleRate > 0.0 && img.Valid() && y < img.height
    requires k < SampleCount(ModeChromaSamples(Robot72, sampleRate))
    ensures var ny, nuv := ModeLumaSamples(Robot72, sampleRate), ModeChromaSamples(Robot72, sampleRate);
            var row := EncodedRows(Robot72, sampleRate, img, cm)[y];
            var pos := 6 + SampleCount(ny) + SampleCount(nuv) + k;
            pos < |row| &&
            row[pos] == SampleCall(cm.yuv2freq(PixelYuv(img, cm, y, ScanIndex(img.width, nuv, k)).v), None)
  {
    var m := Robot72;
    var ny, nuv := ModeLumaSamples(m, sampleRate), ModeChromaSamples(m, sampleRate);
    var s := RowScans(img, cm, y);
    EncodedRowIsRowTrace(m, sampleRate, img, cm, y);
    RowSecondChroma(ModePorch(m), ny, nuv, s, y);
    ResampleAt(s.v, nuv, SampleCount(nuv), k);
    ScansPrefixAt(img, cm, y, img.width, ScanIndex(img.width, nuv, k));
  }

  /** A one-pixel image in Robot 36, at a sample rate of 10 Hz where both
      scans come to a single sample, goes out as seven calls: the header,
      sync, sync porch, the pixel's luma, the even separation tone, the
      chroma porch and the pixel's U. */
  lemma OnePixelRobot36(r: byte, g: byte, b: byte, cm: ColorMapper)
    ensures var img := Image([r, g, b], 1, 1, 3);
            var yuv := cm.rgb2yuv(r, g, b);
            EncodeTrace(Robot36, 10.0, img, cm)
              == [HeaderCall(8), Emit(SyncPulse), Emit(SyncPorch), SampleCall(cm.yuv2freq(yuv.y), None),
                  Emit(SeparationPulse), Emit(Porch(1500.0)), SampleCall(cm.yuv2freq(yuv.u), None)]
  {
    var img := Image([r, g, b], 1, 1, 3);
    var yuv := cm.rgb2yuv(r, g, b);
    var ny, nuv := ModeLumaSamples(Robot36, 10.0), ModeChromaSamples(Robot36, 10.0);
    assert ny == 0.88 && nuv == 0.44;
    var s := RowScans(img, cm, 0);
    OnePixelScans(img, cm);
    SingleSampleScan(cm.yuv2freq(yuv.y), ny);
    SingleSampleScan(cm.yuv2freq(yuv.u), nuv);
    var row := RowTrace(Robot36, ModePorch(Robot36), ny, nuv, s, 0);
    assert row == [Emit(SyncPulse), Emit(SyncPorch), SampleCall(cm.yuv2freq(yuv.y), None),
                   Emit(SeparationPulse), Emit(Porch(1500.0)), SampleCall(cm.yuv2freq(yuv.u), None)];
    EncodedRowIsRowTrace(Robot36, 10.0, img, cm, 0);
    var rows := EncodedRows(Robot36, 10.0, img, cm);
    assert rows == [row];
    assert Concat(rows) == row by {
      assert rows[..0] == [];
    }
  }

  /** A scan of at most one sample over a one-pixel line sends that pixel once. */
  lemma SingleSampleScan(v: real, n: real)
    requires 0.0 < n <= 1.0
    ensures ScanSamples([v], n) == [SampleCall(v, None)]
  {
    assert SampleCount(n) == 1;
    ResampleAt([v], n, 1, 0);
  }

  /** The scans of a one-pixel image hold that pixel's luma, U and V. */
  lemma OnePixelScans(img: Image, cm: ColorMapper)
    requires img.Valid() && img.width == 1 && img.height == 1 && img.channels == 3
    ensures var yuv := cm.rgb2yuv(img.data[0], img.data[1], img.data[2]);
            RowScans(img, cm, 0) == ScanTriple([cm.yuv2freq(yuv.y)], [cm.yuv2freq(yuv.u)], [cm.yuv2freq(yuv.v)])
  {
    assert PixelOffset(img, 0, 0) == 0;
    ScansPrefixAt(img, cm, 0, 1, 0);
  }

  // ---------------------------------------------------------------------
  // Which pixels a row reads

  /** Row y's scans depend only on row y's stretch of the pixel buffer:
      two images of the same shape that agree there give the same scans. */
  lemma {:induction false} ScansReadOnlyOwnRow(a: Image, b: Image, cm: ColorMapper, y: nat, k: nat)
    requires a.Valid() && b.Valid() && y < a.height && k <= a.width
    requires a.width == b.width && a.height == b.height && a.channels == b.channels
    requires RowBytes(a, y) == RowBytes(b, y)
    ensures ScansPrefix(a, cm, y, k) == ScansPrefix(b, cm, y, k)
  {
    if k > 0 {
      ScansReadOnlyOwnRow(a, b, cm, y, k - 1);
      assert PixelYuv(a, cm, y, k - 1) == PixelYuv(b, cm, y, k - 1);
    }
  }
}
