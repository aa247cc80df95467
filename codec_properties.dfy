/**
 * Properties that tie the encoders to the decoders, and the two decoders to
 * each other. The decoders see a signal only through `peaksOf`; the round
 * trips hold for a spectrum and peak picker that report exactly the two
 * frequencies of a tone block.
 */
module CodecProperties {
  import opened Wrappers
  import opened Keypad
  import opened Synthesis
  import opened Framing
  import opened Detection
  import Arith
  import DesktopApp
  import FlaskApp
  import Dialer

  /** An ideal spectrum and peak picker: a tone block's peaks are its row, then its column frequency. */
  ghost predicate IdealPeaks(peaksOf: seq<int> -> seq<real>, tone: nat, wave: Waveform)
  {
    forall p | p in FlaskTable :: peaksOf(ToneBlock(p, tone, wave)) == [p.low as real, p.high as real]
  }

  /** Every key of `table` is a desktop key with the same pair (true of all three tables). */
  ghost predicate AgreesWithDesktop(table: map<char, FreqPair>)
  {
    forall k | k in table :: k in DesktopTable && table[k] == DesktopTable[k]
  }

  /** Exactly the row and the column of a grid pair are detected from its two peaks, under either policy. */
  lemma PairPeaksClassify(l: int, h: int, tol: real, stopAtFirst: bool)
    requires l in RowFreqs && h in ColFreqs && 0.0 < tol <= 36.5
    ensures Detected([l as real, h as real], RowFreqs, tol, stopAtFirst) == Some(l)
    ensures Detected([l as real, h as real], ColFreqs, tol, stopAtFirst) == Some(h)
  {
    var peaks := [l as real, h as real];
    BandRanges();
    var m := Match(h as real, RowFreqs, tol, stopAtFirst);
    if m.Some? {
      MatchIsNear(h as real, tol, stopAtFirst, m.value);
    }
    MatchIsNear(l as real, tol, stopAtFirst, l);
    MatchIsNear(h as real, tol, stopAtFirst, h);
    assert peaks[..1] == [l as real];
    assert [l as real][..0] == [];
  }

  /** Both decoders turn the two peaks of key `k`'s pair into `k`. */
  lemma PairPeaksDecode(k: char, tol: real)
    requires k in DesktopTable && 0.0 < tol <= 36.5
    ensures var p := DesktopTable[k];
            && DesktopApp.FrameSymbol([p.low as real, p.high as real], tol) == Some(k)
            && FlaskApp.ToneSymbol([p.low as real, p.high as real], tol) == k
  {
    var p := DesktopTable[k];
    TablesAreInverse();
    FlaskKeysOnGrid();
    assert p in FlaskTable && FlaskTable[p] == k;
    var peaks := [p.low as real, p.high as real];
    PairPeaksClassify(p.low, p.high, tol, true);
    PairPeaksClassify(p.low, p.high, tol, false);
    var low, high := Some(p.low), Some(p.high);
    DesktopApp.KeyForResolves(low, high);
    assert DesktopApp.Resolves(k, low, high);
    FlaskApp.ToneSymbolSpec(peaks, tol);
  }

  /**
   * With a non-empty tone, the desktop framer cuts the synthesised signal into
   * exactly one window per known key, and window `k` is the tone block of the
   * `k`-th known key.
   */
  lemma EncodedWindows(keys: string, table: map<char, FreqPair>, tone: nat, pause: nat, wave: Waveform)
    requires tone > 0
    ensures var w := Windows(Layout(keys, table, tone, pause, wave), tone, tone + pause);
            var v := ValidKeys(keys, table);
            && |w| == |v|
            && forall k | 0 <= k < |w| :: v[k] in table && w[k] == ToneBlock(table[v[k]], tone, wave)
  {
    var s := Layout(keys, table, tone, pause, wave);
    var b := tone + pause;
    var w := Windows(s, tone, b);
    var v := ValidKeys(keys, table);
    var n := |v|;
    LayoutLength(keys, table, tone, pause, wave);
    WindowsAt(s, tone, b);
    assert |s| == Offset(n, b);
    assert !(n < |w|);
    if n > 0 {
      Arith.MulSucc(n - 1, b);
      assert Offset(n - 1, b) + tone <= |s|;
    }
    forall k | 0 <= k < |w|
      ensures v[k] in table && w[k] == ToneBlock(table[v[k]], tone, wave)
    {
      LayoutBlockAt(keys, table, tone, pause, wave, k);
    }
  }

  /** The web framer cuts the synthesised signal into the same frames as the desktop framer. */
  lemma EncodedSegments(keys: string, table: map<char, FreqPair>, tone: nat, pause: nat, wave: Waveform)
    requires tone > 0
    ensures var s := Layout(keys, table, tone, pause, wave);
            Segments(s, tone, tone + pause) == Windows(s, tone, tone + pause)
  {
    SegmentsAreWindows(Layout(keys, table, tone, pause, wave), tone, tone + pause, 0);
  }

  /** Frames whose symbols are `keys` make the web output `keys`. */
  lemma WebAllResolved(frames: seq<seq<int>>, peaksOf: seq<int> -> seq<real>, tol: real, keys: string)
    requires |frames| == |keys|
    requires forall k | 0 <= k < |frames| :: FlaskApp.ToneSymbol(peaksOf(frames[k]), tol) == keys[k]
    ensures FlaskApp.FlaskDecoded(frames, peaksOf, tol) == keys
  {
    FlaskApp.FlaskDecodedAt(frames, peaksOf, tol);
  }

  /** Frame `k` of an encoded signal, seen by an ideal peak picker, has the two peaks of the `k`-th key. */
  lemma EncodedFramePeaks(table: map<char, FreqPair>, tone: nat, wave: Waveform, peaksOf: seq<int> -> seq<real>,
                          key: char, frame: seq<int>)
    requires IdealPeaks(peaksOf, tone, wave) && AgreesWithDesktop(table)
    requires key in table && frame == ToneBlock(table[key], tone, wave)
    ensures key in DesktopTable
    ensures peaksOf(frame) == [DesktopTable[key].low as real, DesktopTable[key].high as real]
  {
    TablesAreInverse();
    assert DesktopTable[key] in FlaskTable;
  }

  /**
   * Under a tolerance of at most 36.5 Hz, the web classifier reads every
   * window of a synthesised signal as its key, so the web output over those
   * windows is the list of known keys.
   */
  lemma WindowsDecodeToKeys(keys: string, table: map<char, FreqPair>, tone: nat, pause: nat, wave: Waveform,
                            peaksOf: seq<int> -> seq<real>, tol: real)
    requires tone > 0 && IdealPeaks(peaksOf, tone, wave) && AgreesWithDesktop(table) && 0.0 < tol <= 36.5
    ensures var w := Windows(Layout(keys, table, tone, pause, wave), tone, tone + pause);
            FlaskApp.FlaskDecoded(w, peaksOf, tol) == ValidKeys(keys, table)
  {
    var w := Windows(Layout(keys, table, tone, pause, wave), tone, tone + pause);
    var v := ValidKeys(keys, table);
    EncodedWindows(keys, table, tone, pause, wave);
    forall k | 0 <= k < |w|
      ensures FlaskApp.ToneSymbol(peaksOf(w[k]), tol) == v[k]
    {
      EncodedFramePeaks(table, tone, wave, peaksOf, v[k], w[k]);
      PairPeaksDecode(v[k], tol);
    }
    WebAllResolved(w, peaksOf, tol, v);
  }

  /**
   * Desktop round trip: decoding, with the desktop's 15 Hz tolerance, the
   * signal `generate_dtmf_sequence` builds gives back its known keys.
   */
  lemma DesktopRoundTrip(keys: string, tone: nat, pause: nat, wave: Waveform, peaksOf: seq<int> -> seq<real>)
    requires tone > 0 && IdealPeaks(peaksOf, tone, wave)
    ensures var s := Layout(keys, DesktopTable, tone, pause, wave);
            DesktopApp.DecodedFrom(Windows(s, tone, tone + pause), peaksOf, DesktopApp.Tolerance)
            == ValidKeys(keys, DesktopTable)
  {
    var w := Windows(Layout(keys, DesktopTable, tone, pause, wave), tone, tone + pause);
    var v := ValidKeys(keys, DesktopTable);
    assert AgreesWithDesktop(DesktopTable);
    WindowsDecodeToKeys(keys, DesktopTable, tone, pause, wave, peaksOf, DesktopApp.Tolerance);
    DesktopIsWebWithoutMarks(w, peaksOf, DesktopApp.Tolerance);
    KnownKeysHaveNoMark(keys, DesktopTable);
    WithoutUnknownOfKeys(v);
  }

  /**
   * Web round trip: the web decoder, with its 10 Hz tolerance and a step of
   * one tone plus one pause, gives back the known keys of any table that
   * agrees with the desktop's.
   */
  lemma WebRoundTrip(keys: string, table: map<char, FreqPair>, tone: nat, pause: nat, wave: Waveform,
                     peaksOf: seq<int> -> seq<real>)
    requires tone > 0 && IdealPeaks(peaksOf, tone, wave) && AgreesWithDesktop(table)
    ensures var s := Layout(keys, table, tone, pause, wave);
            FlaskApp.FlaskDecoded(Segments(s, tone, tone + pause), peaksOf, FlaskApp.Tolerance)
            == ValidKeys(keys, table)
  {
    EncodedSegments(keys, table, tone, pause, wave);
    WindowsDecodeToKeys(keys, table, tone, pause, wave, peaksOf, FlaskApp.Tolerance);
  }

  /**
   * The dialer's upload to the web decoder: at 8000 samples per second the
   * web decoder cuts 4000-sample segments every 4800 samples, which is the
   * dialer's layout, so it returns the dialed digits without A-D or any
   * other character outside the table.
   */
  lemma DialerToWebRoundTrip(digits: string, wave: Waveform, peaksOf: seq<int> -> seq<real>)
    requires IdealPeaks(peaksOf, Dialer.ToneSamples, wave)
    ensures FlaskApp.FlaskDecoded(Segments(Dialer.DialerSignal(digits, wave), Dialer.ToneSamples, Dialer.BlockSamples),
                                  peaksOf, FlaskApp.Tolerance)
            == ValidKeys(digits, DialerTable)
  {
    DialerAgreesWithDesktop();
    WebRoundTrip(digits, DialerTable, Dialer.ToneSamples, Dialer.PauseSamples, wave, peaksOf);
  }

  /**
   * The dialer's signal decoded on the desktop: its 4000-sample tones and
   * 800-sample pauses are the desktop decoder's default framing at 8000
   * samples per second, so the desktop returns the dialed digits without A-D
   * or any other character outside the dialer's table.
   */
  lemma DialerToDesktopRoundTrip(digits: string, wave: Waveform, peaksOf: seq<int> -> seq<real>)
    requires IdealPeaks(peaksOf, Dialer.ToneSamples, wave)
    ensures DesktopApp.DecodedFrom(Windows(Dialer.DialerSignal(digits, wave), Dialer.ToneSamples, Dialer.BlockSamples),
                                   peaksOf, DesktopApp.Tolerance)
            == ValidKeys(digits, DialerTable)
  {
    var w := Windows(Dialer.DialerSignal(digits, wave), Dialer.ToneSamples, Dialer.BlockSamples);
    DialerAgreesWithDesktop();
    WindowsDecodeToKeys(digits, DialerTable, Dialer.ToneSamples, Dialer.PauseSamples, wave, peaksOf, DesktopApp.Tolerance);
    DesktopIsWebWithoutMarks(w, peaksOf, DesktopApp.Tolerance);
    KnownKeysHaveNoMark(digits, DialerTable);
    WithoutUnknownOfKeys(ValidKeys(digits, DialerTable));
  }

  /** Dialing "123" makes 14400 samples, and the web decoder reads "123" back. */
  lemma DialOneTwoThree(wave: Waveform, peaksOf: seq<int> -> seq<real>)
    requires IdealPeaks(peaksOf, Dialer.ToneSamples, wave)
    ensures |Dialer.DialerSignal("123", wave)| == 14400
    ensures FlaskApp.FlaskDecoded(Segments(Dialer.DialerSignal("123", wave), Dialer.ToneSamples, Dialer.BlockSamples),
                                  peaksOf, FlaskApp.Tolerance)
            == "123"
  {
    ValidKeysOfKnown("123", DialerTable);
    LayoutLength("123", DialerTable, Dialer.ToneSamples, Dialer.PauseSamples, wave);
    DialerToWebRoundTrip("123", wave, peaksOf);
  }

  /** The web output with its `'?'` marks removed. */
  function WithoutUnknown(s: string): (r: string)
    ensures FlaskApp.Unknown !in r
  {
    if s == [] then ""
    else (if s[0] == FlaskApp.Unknown then "" else [s[0]]) + WithoutUnknown(s[1..])
  }

  /** `'?'` is no key of any table, so no known key is a `'?'` mark. */
  lemma KnownKeysHaveNoMark(keys: string, table: map<char, FreqPair>)
    requires AgreesWithDesktop(table)
    ensures FlaskApp.Unknown !in ValidKeys(keys, table)
  {
    DesktopKeysAreSymbols();
    assert FlaskApp.Unknown !in Symbols;
  }

  /** A string without `'?'` marks is left as it is. */
  lemma {:induction false} WithoutUnknownOfKeys(s: string)
    requires FlaskApp.Unknown !in s
    ensures WithoutUnknown(s) == s
  {
    if s != [] {
      assert s[0] in s;
      assert forall c | c in s[1..] :: c in s;
      WithoutUnknownOfKeys(s[1..]);
      assert s == [s[0]] + s[1..];
    }
  }

  /**
   * Under one tolerance of at most 36.5 Hz, a frame the desktop decoder drops
   * is exactly one the web decoder marks `'?'`, and otherwise both give the
   * same symbol.
   */
  lemma SymbolsAgree(peaks: seq<real>, tol: real)
    requires 0.0 < tol <= 36.5
    ensures var t := FlaskApp.ToneSymbol(peaks, tol);
            DesktopApp.FrameSymbol(peaks, tol) == if t == FlaskApp.Unknown then None else Some(t)
  {
    BandsSeparated();
    BreakIsIrrelevant(peaks, RowFreqs, tol, 73);
    BreakIsIrrelevant(peaks, ColFreqs, tol, 127);
    var row := Detected(peaks, RowFreqs, tol, false);
    var col := Detected(peaks, ColFreqs, tol, false);
    FlaskApp.ToneSymbolSpec(peaks, tol);
    DesktopApp.KeyForResolves(row, col);
    if row.Some? && col.Some? {
      var p := FreqPair(row.value, col.value);
      FlaskApp.GridPairIsKey(row.value, col.value);
      TablesAreInverse();
      assert DesktopApp.Resolves(FlaskTable[p], row, col);
    }
  }

  /**
   * Under one tolerance, the desktop output over a list of frames is the web
   * output over the same frames with the `'?'` marks removed.
   */
  lemma {:induction false} DesktopIsWebWithoutMarks(frames: seq<seq<int>>, peaksOf: seq<int> -> seq<real>, tol: real)
    requires 0.0 < tol <= 36.5
    ensures DesktopApp.DecodedFrom(frames, peaksOf, tol) == WithoutUnknown(FlaskApp.FlaskDecoded(frames, peaksOf, tol))
  {
    if frames != [] {
      DesktopIsWebWithoutMarks(frames[1..], peaksOf, tol);
      SymbolsAgree(peaksOf(frames[0]), tol);
      var web := FlaskApp.FlaskDecoded(frames, peaksOf, tol);
      assert web[0] == FlaskApp.ToneSymbol(peaksOf(frames[0]), tol);
      assert web[1..] == FlaskApp.FlaskDecoded(frames[1..], peaksOf, tol);
    }
  }

  /**
   * The two pipelines on one signal, under one tolerance and a non-empty
   * tone: the desktop output is the web output without its `'?'` marks, so it
   * is never longer.
   */
  lemma PipelinesAgree(signal: seq<int>, tone: nat, step: nat, peaksOf: seq<int> -> seq<real>, tol: real)
    requires tone > 0 && step > 0 && 0.0 < tol <= 36.5
    ensures DesktopApp.DecodedFrom(Windows(signal, tone, step), peaksOf, tol)
            == WithoutUnknown(FlaskApp.FlaskDecoded(Segments(signal, tone, step), peaksOf, tol))
  {
    SegmentsAreWindows(signal, tone, step, 0);
    DesktopIsWebWithoutMarks(Windows(signal, tone, step), peaksOf, tol);
  }

  /**
   * The two tolerances do differ: a 1209 Hz peak with a row peak 12 Hz above
   * 697 Hz reads as '1' on the desktop ...
   */
  lemma DesktopToleranceAccepts()
    ensures DesktopApp.FrameSymbol([709.0, 1209.0], DesktopApp.Tolerance) == Some('1')
  {
    var peaks := [709.0, 1209.0];
    assert peaks[..1] == [709.0];
    assert Detected(peaks, RowFreqs, 15.0, true) == Some(697);
    assert Detected(peaks, ColFreqs, 15.0, true) == Some(1209);
    assert DesktopApp.Resolves('1', Some(697), Some(1209));
    DesktopApp.KeyForResolves(Some(697), Some(1209));
    DesktopTableIsBijection();
  }

  /** ... and as '?' on the web, whose 10 Hz tolerance rejects the row peak. */
  lemma WebToleranceRejects()
    ensures FlaskApp.ToneSymbol([709.0, 1209.0], FlaskApp.Tolerance) == FlaskApp.Unknown
  {
    var peaks := [709.0, 1209.0];
    assert peaks[..1] == [709.0];
    assert [709.0][..0] == [];
    assert LastNear(1209.0, RowFreqs, 10.0) == None;
    assert LastNear(709.0, RowFreqs, 10.0) == None;
    assert Detected(peaks[..1], RowFreqs, 10.0, false) == None;
    assert Detected(peaks, RowFreqs, 10.0, false) == None;
  }

  /**
   * At their own tolerances the two decoders can even name different keys:
   * with a second row peak 12 Hz above 770 Hz, the desktop's last match is
   * row 770 and it reads '4' ...
   */
  lemma DesktopReadsFour()
    ensures DesktopApp.FrameSymbol([697.0, 782.0, 1209.0], DesktopApp.Tolerance) == Some('4')
  {
    var peaks := [697.0, 782.0, 1209.0];
    assert peaks[..2] == [697.0, 782.0];
    assert peaks[..2][..1] == [697.0];
    assert FirstNear(1209.0, RowFreqs, 15.0) == None;
    assert FirstNear(782.0, RowFreqs, 15.0) == Some(770);
    assert Detected(peaks, RowFreqs, 15.0, true) == Some(770);
    assert FirstNear(1209.0, ColFreqs, 15.0) == Some(1209);
    assert Detected(peaks, ColFreqs, 15.0, true) == Some(1209);
    assert DesktopApp.Resolves('4', Some(770), Some(1209));
    DesktopApp.KeyForResolves(Some(770), Some(1209));
    DesktopTableIsBijection();
  }

  /** ... while the web decoder, at 10 Hz, keeps row 697 and reads '1'. */
  lemma WebReadsOne()
    ensures FlaskApp.ToneSymbol([697.0, 782.0, 1209.0], FlaskApp.Tolerance) == '1'
  {
    var peaks := [697.0, 782.0, 1209.0];
    assert peaks[..2] == [697.0, 782.0];
    assert peaks[..2][..1] == [697.0];
    assert [697.0][..0] == [];
    assert LastNear(1209.0, RowFreqs, 10.0) == None;
    assert LastNear(782.0, RowFreqs, 10.0) == None;
    MatchIsNear(697.0, 10.0, false, 697);
    assert Detected(peaks, RowFreqs, 10.0, false) == Some(697);
    MatchIsNear(1209.0, 10.0, false, 1209);
    assert Detected(peaks, ColFreqs, 10.0, false) == Some(1209);
    FlaskApp.GridPairIsKey(697, 1209);
  }
}
