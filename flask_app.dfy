/**
 * The web decoder: segments cut by a `range` loop with an early `break`,
 * each segment classified with a 10 Hz tolerance and looked up in the
 * (row, column) -> symbol table, `'?'` standing for every frame it cannot
 * resolve.
 */
module FlaskApp {
  import opened Wrappers
  import Arith
  import opened Keypad
  import opened Framing
  import opened Detection

  /** Match tolerance of the web decoder, in Hz. */
  const Tolerance: real := 10.0

  /** The symbol the web decoder writes for a frame it cannot resolve. */
  const Unknown: char := '?'

  /** Python truthiness of `found_row` / `found_col`: `None` and `0` are false. */
  predicate Truthy(o: Option<int>)
  {
    o.Some? && o.value != 0
  }

  /** The result of `detect_dtmf_tone`: the table's symbol for (`row`, `col`), or `'?'`, when both are truthy; `'?'` otherwise. */
  function Lookup(row: Option<int>, col: Option<int>): char
  {
    if Truthy(row) && Truthy(col) then
      var p := FreqPair(row.value, col.value);
      if p in FlaskTable then FlaskTable[p] else Unknown
    else Unknown
  }

  /** A grid pair is a key of the web table, its symbol is a keypad symbol, and both parts are truthy. */
  lemma GridPairIsKey(r: int, c: int)
    requires r in RowFreqs && c in ColFreqs
    ensures FreqPair(r, c) in FlaskTable && FlaskTable[FreqPair(r, c)] in Symbols
    ensures r != 0 && c != 0
  {
    BandRanges();
    FlaskKeysOnGrid();
    var p := FreqPair(r, c);
    assert p in FlaskTable;
    TablesAreInverse();
    assert FlaskTable[p] in DesktopTable;
    DesktopKeysAreSymbols();
  }

  /**
   * The lookup yields a keypad symbol exactly when both bands were found, and
   * then it is the table's symbol for the found pair; in every other case it
   * yields `'?'`.
   */
  lemma LookupResolves(row: Option<int>, col: Option<int>)
    requires row.Some? ==> row.value in RowFreqs
    requires col.Some? ==> col.value in ColFreqs
    ensures Lookup(row, col) != Unknown <==> row.Some? && col.Some?
    ensures row.Some? && col.Some? ==> Lookup(row, col) == FlaskTable[FreqPair(row.value, col.value)]
    ensures Lookup(row, col) == Unknown || Lookup(row, col) in Symbols
  {
    if row.Some? && col.Some? {
      GridPairIsKey(row.value, col.value);
    }
  }

  /** What `detect_dtmf_tone` returns for a segment whose detected peak frequencies are `peaks`. */
  function ToneSymbol(peaks: seq<real>, tol: real): char
  {
    Lookup(Detected(peaks, RowFreqs, tol, false), Detected(peaks, ColFreqs, tol, false))
  }

  /**
   * `detect_dtmf_tone` returns `'?'` or one of the sixteen symbols; `'?'`
   * exactly when some band has no peak within the tolerance, and otherwise
   * the symbol of the detected (row, column) pair.
   */
  lemma ToneSymbolSpec(peaks: seq<real>, tol: real)
    ensures var r := ToneSymbol(peaks, tol);
            var row := Detected(peaks, RowFreqs, tol, false);
            var col := Detected(peaks, ColFreqs, tol, false);
            && (r == Unknown || r in Symbols)
            && (r == Unknown <==> row.None? || col.None?)
            && (row.Some? && col.Some? ==> r == FlaskTable[FreqPair(row.value, col.value)])
  {
    LookupResolves(Detected(peaks, RowFreqs, tol, false), Detected(peaks, ColFreqs, tol, false));
  }

  /**
   * One inner loop of `detect_dtmf_tone`: every frequency of `freqs` within
   * the tolerance of `f` overwrites `found`, so the last one wins.
   */
  method MatchBand(f: real, freqs: seq<int>, found: Option<int>) returns (r: Option<int>)
    ensures r == match LastNear(f, freqs, Tolerance) case Some(c) => Some(c) case None => found
  {
    r := found;
    for j := 0 to |freqs|
      invariant r == match LastNear(f, freqs[..j], Tolerance) case Some(c) => Some(c) case None => found
    {
      assert freqs[..j + 1][..j] == freqs[..j];
      if Abs(f - freqs[j] as real) < Tolerance {
        r := Some(freqs[j]);
      }
    }
    assert freqs[..|freqs|] == freqs;
  }

  /**
   * `detect_dtmf_tone` after the spectrum: for every detected frequency, each
   * row (then each column) within the tolerance overwrites `found_row`
   * (`found_col`); no loop breaks.
   */
  method DetectDtmfTone(detected: seq<real>) returns (key: char)
    ensures key == ToneSymbol(detected, Tolerance)
  {
    var foundRow: Option<int> := None;
    var foundCol: Option<int> := None;
    for p := 0 to |detected|
      invariant foundRow == Detected(detected[..p], RowFreqs, Tolerance, false)
      invariant foundCol == Detected(detected[..p], ColFreqs, Tolerance, false)
    {
      var f := detected[p];
      assert detected[..p + 1][..p] == detected[..p];
      foundRow := MatchBand(f, RowFreqs, foundRow);
      foundCol := MatchBand(f, ColFreqs, foundCol);
    }
    assert detected[..|detected|] == detected;
    if Truthy(foundRow) && Truthy(foundCol) {
      var pair := FreqPair(foundRow.value, foundCol.value);
      key := if pair in FlaskTable then FlaskTable[pair] else Unknown;
    } else {
      key := Unknown;
    }
  }

  /** The web output over `frames`: one character per frame, in frame order. */
  function FlaskDecoded(frames: seq<seq<int>>, peaksOf: seq<int> -> seq<real>, tol: real): (r: string)
    ensures |r| == |frames|
  {
    if frames == [] then ""
    else [ToneSymbol(peaksOf(frames[0]), tol)] + FlaskDecoded(frames[1..], peaksOf, tol)
  }

  /** Character `k` of the web output is the symbol of frame `k`. */
  lemma {:induction false} FlaskDecodedAt(frames: seq<seq<int>>, peaksOf: seq<int> -> seq<real>, tol: real)
    ensures var r := FlaskDecoded(frames, peaksOf, tol);
            forall k | 0 <= k < |frames| :: r[k] == ToneSymbol(peaksOf(frames[k]), tol)
  {
    if frames != [] {
      FlaskDecodedAt(frames[1..], peaksOf, tol);
      var r := FlaskDecoded(frames, peaksOf, tol);
      forall k | 0 <= k < |frames|
        ensures r[k] == ToneSymbol(peaksOf(frames[k]), tol)
      {
        if k > 0 {
          assert r[k] == FlaskDecoded(frames[1..], peaksOf, tol)[k - 1];
          assert frames[k] == frames[1..][k - 1];
        }
      }
    }
  }

  /** The web output over a segment and the segments after it. */
  lemma FlaskDecodedCons(segment: seq<int>, rest: seq<seq<int>>, peaksOf: seq<int> -> seq<real>, tol: real)
    ensures FlaskDecoded([segment] + rest, peaksOf, tol)
            == [ToneSymbol(peaksOf(segment), tol)] + FlaskDecoded(rest, peaksOf, tol)
  {
    assert ([segment] + rest)[1..] == rest;
  }

  /**
   * One turn of the frame loop: the output still to come from `i` on is the
   * segment's symbol, then the output from one step later.
   */
  lemma FlaskStep(s: seq<int>, tone: nat, step: nat, i: nat, after: nat, peaksOf: seq<int> -> seq<real>, tol: real,
                  key: char, done: string, total: string)
    requires step > 0 && i < |s| && i + tone <= |s| && after == i + step
    requires key == ToneSymbol(peaksOf(s[i .. i + tone]), tol)
    requires done + FlaskDecoded(SegmentsFrom(s, tone, step, i), peaksOf, tol) == total
    ensures (done + [key]) + FlaskDecoded(SegmentsFrom(s, tone, step, after), peaksOf, tol) == total
  {
    SegmentsFromCons(s, tone, step, i, after);
    FlaskDecodedCons(s[i .. i + tone], SegmentsFrom(s, tone, step, after), peaksOf, tol);
    Arith.AppendAssoc(done, [key], FlaskDecoded(SegmentsFrom(s, tone, step, after), peaksOf, tol));
  }

  /**
   * The body of the frame loop for a whole segment: detect its tone and
   * append the result, `'?'` included.
   */
  method DecodeSegmentAt(signal: seq<int>, toneSamples: nat, step: nat, i: nat, after: nat, segment: seq<int>,
                         peaksOf: seq<int> -> seq<real>, decoded: string, ghost total: string)
    returns (next: string)
    requires step > 0 && i < |signal| && i + toneSamples <= |signal| && after == i + step
    requires segment == signal[i .. i + toneSamples]
    requires decoded + FlaskDecoded(SegmentsFrom(signal, toneSamples, step, i), peaksOf, Tolerance) == total
    ensures next + FlaskDecoded(SegmentsFrom(signal, toneSamples, step, after), peaksOf, Tolerance) == total
  {
    var key := DetectDtmfTone(peaksOf(segment));
    FlaskStep(signal, toneSamples, step, i, after, peaksOf, Tolerance, key, decoded, total);
    next := decoded + [key];
  }

  /** Once the loop has passed the end of the signal, or met a short segment, nothing more is appended. */
  lemma FlaskAtEnd(s: seq<int>, tone: nat, step: nat, i: nat, peaksOf: seq<int> -> seq<real>, tol: real,
                   done: string)
    requires step > 0 && (i >= |s| || i + tone > |s|)
    ensures done + FlaskDecoded(SegmentsFrom(s, tone, step, i), peaksOf, tol) == done
  {
    SegmentsFromEnd(s, tone, step, i);
    assert done + [] == done;
  }

  /**
   * The frame loop of the `index` and `decode` routes: for `i` in
   * `range(0, |signal|, step)`, the segment `signal[i : i + toneSamples]`;
   * stop at the first short one, otherwise append its detected symbol.
   * `peaksOf` stands for the spectrum and `find_peaks`.
   */
  method DecodeSegments(signal: seq<int>, toneSamples: nat, step: nat, peaksOf: seq<int> -> seq<real>)
    returns (decoded: string)
    requires step > 0
    ensures decoded == FlaskDecoded(Segments(signal, toneSamples, step), peaksOf, Tolerance)
  {
    decoded := "";
    ghost var total := FlaskDecoded(Segments(signal, toneSamples, step), peaksOf, Tolerance);
    assert decoded + total == total;
    var i := 0;
    while i < |signal|
      invariant decoded + FlaskDecoded(SegmentsFrom(signal, toneSamples, step, i), peaksOf, Tolerance) == total
      decreases |signal| - i
    {
      var end := if i + toneSamples <= |signal| then i + toneSamples else |signal|;
      var segment := signal[i .. end];
      if |segment| < toneSamples {
        break;
      }
      var after := i + step;
      decoded := DecodeSegmentAt(signal, toneSamples, step, i, after, segment, peaksOf, decoded, total);
      i := after;
    }
    FlaskAtEnd(signal, toneSamples, step, i, peaksOf, Tolerance, decoded);
  }

  /**
   * The web output has one character per complete segment, and character `k`
   * is the detected symbol of `signal[k * step .. k * step + toneSamples]`.
   */
  lemma DecodedSegmentsAt(signal: seq<int>, toneSamples: nat, step: nat, peaksOf: seq<int> -> seq<real>)
    requires step > 0
    ensures var r := FlaskDecoded(Segments(signal, toneSamples, step), peaksOf, Tolerance);
            && (forall k: nat :: k < |r| <==> Offset(k, step) < |signal| && Offset(k, step) + toneSamples <= |signal|)
            && (forall k: nat | k < |r| ::
                  r[k] == ToneSymbol(peaksOf(signal[Offset(k, step) .. Offset(k, step) + toneSamples]), Tolerance))
  {
    var g := Segments(signal, toneSamples, step);
    SegmentsAt(signal, toneSamples, step);
    FlaskDecodedAt(g, peaksOf, Tolerance);
  }
}
