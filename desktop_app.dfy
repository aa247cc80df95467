/**
 * The desktop encoder/decoder: sequence synthesis over the sixteen-key table,
 * and the decoding loop that frames the signal, classifies each frame's peaks
 * with a 15 Hz tolerance and appends only the symbols it can resolve.
 */
module DesktopApp {
  import opened Wrappers
  import Arith
  import opened Keypad
  import opened Synthesis
  import opened Framing
  import opened Detection

  /** Match tolerance of the desktop decoder, in Hz. */
  const Tolerance: real := 15.0

  /** `generate_tone`: the tone block of a key; an unknown key is a lookup error. */
  function GenerateTone(key: char, toneSamples: nat, wave: Waveform): (r: Option<seq<int>>)
    ensures r.Some? <==> key in DesktopTable
    ensures r.Some? ==> |r.value| == toneSamples
  {
    if key in DesktopTable then Some(ToneBlock(DesktopTable[key], toneSamples, wave)) else None
  }

  /**
   * `generate_dtmf_sequence`: for each key of `sequence` that the table knows,
   * append its tone and a pause of zeros; skip the others.
   */
  method GenerateDtmfSequence(sequence: string, toneSamples: nat, pauseSamples: nat, wave: Waveform)
    returns (signal: seq<int>)
    ensures signal == Layout(sequence, DesktopTable, toneSamples, pauseSamples, wave)
    ensures |signal| == |ValidKeys(sequence, DesktopTable)| * (toneSamples + pauseSamples)
  {
    signal := [];
    var pause := Zeros(pauseSamples);
    for i := 0 to |sequence|
      invariant signal == Layout(sequence[..i], DesktopTable, toneSamples, pauseSamples, wave)
    {
      var key := sequence[i];
      assert sequence[..i + 1][..i] == sequence[..i];
      if key in DesktopTable {
        var tone := GenerateTone(key, toneSamples, wave).value;
        signal := signal + tone + pause;
      }
    }
    assert sequence[..|sequence|] == sequence;
    LayoutLength(sequence, DesktopTable, toneSamples, pauseSamples, wave);
  }

  /** Key `k` of the table has the pair (`low`, `high`). */
  predicate Resolves(k: char, low: Option<int>, high: Option<int>)
  {
    k in DesktopTable && low == Some(DesktopTable[k].low) && high == Some(DesktopTable[k].high)
  }

  /** The first key of `order` whose pair is (`low`, `high`), if any. */
  function KeyIn(order: seq<char>, low: Option<int>, high: Option<int>): Option<char>
  {
    if order == [] then None
    else if Resolves(order[0], low, high) then Some(order[0])
    else KeyIn(order[1..], low, high)
  }

  lemma {:induction false} KeyInFinds(order: seq<char>, low: Option<int>, high: Option<int>)
    ensures var r := KeyIn(order, low, high);
            && (r.Some? ==> r.value in order && Resolves(r.value, low, high))
            && (r.None? ==> forall k | k in order :: !Resolves(k, low, high))
  {
    if order != [] {
      KeyInFinds(order[1..], low, high);
      assert forall k | k in order[1..] :: k in order;
      assert forall k | k in order :: k == order[0] || k in order[1..];
    }
  }

  /** One step of the scan from position `i`: a hit there, or the scan from `i + 1`. */
  lemma KeyInAt(order: seq<char>, i: nat, low: Option<int>, high: Option<int>)
    requires i < |order|
    ensures KeyIn(order[i..], low, high)
            == if Resolves(order[i], low, high) then Some(order[i]) else KeyIn(order[i + 1..], low, high)
  {
    assert order[i..][1..] == order[i + 1..];
  }

  /** The key the desktop's table scan finds for (`low`, `high`). */
  function KeyFor(low: Option<int>, high: Option<int>): Option<char>
  {
    KeyIn(DesktopKeyOrder, low, high)
  }

  /** The scan finds a key with exactly the detected pair, and finds none only when no key has it. */
  lemma KeyForResolves(low: Option<int>, high: Option<int>)
    ensures var r := KeyFor(low, high);
            && (r.Some? ==> r.value in DesktopTable && Resolves(r.value, low, high))
            && (r.None? ==> forall k | k in DesktopTable :: !Resolves(k, low, high))
  {
    KeyInFinds(DesktopKeyOrder, low, high);
    DesktopKeyOrderIsKeys();
  }

  /** What the desktop decoder appends for one frame whose peaks are `peaks`. */
  function FrameSymbol(peaks: seq<real>, tol: real): (r: Option<char>)
    ensures r.Some? ==> r.value in DesktopTable
  {
    var low, high := Detected(peaks, RowFreqs, tol, true), Detected(peaks, ColFreqs, tol, true);
    KeyForResolves(low, high);
    KeyFor(low, high)
  }

  /** What one frame adds to the output: its key when it resolved to one, nothing otherwise. */
  function Emitted(key: Option<char>): (r: string)
    ensures |r| <= 1
  {
    match key
    case Some(c) => [c]
    case None => []
  }

  /** The desktop output over `frames`: the resolved symbols, in frame order. */
  function DecodedFrom(frames: seq<seq<int>>, peaksOf: seq<int> -> seq<real>, tol: real): (r: string)
    ensures |r| <= |frames|
    ensures forall c | c in r :: c in DesktopTable
  {
    if frames == [] then ""
    else Emitted(FrameSymbol(peaksOf(frames[0]), tol)) + DecodedFrom(frames[1..], peaksOf, tol)
  }

  /**
   * The peak loop of `decode_dtmf_from_signal`: each peak overwrites
   * `detected_low` with the first row near it, and `detected_high` with the
   * first column near it.
   */
  method ClassifyPeaks(peaks: seq<real>) returns (low: Option<int>, high: Option<int>)
    ensures low == Detected(peaks, RowFreqs, Tolerance, true)
    ensures high == Detected(peaks, ColFreqs, Tolerance, true)
  {
    low, high := None, None;
    for p := 0 to |peaks|
      invariant low == Detected(peaks[..p], RowFreqs, Tolerance, true)
      invariant high == Detected(peaks[..p], ColFreqs, Tolerance, true)
    {
      var freq := peaks[p];
      assert peaks[..p + 1][..p] == peaks[..p];
      ghost var lowBefore, highBefore := low, high;
      var j := 0;
      while j < |RowFreqs|
        invariant 0 <= j <= |RowFreqs|
        invariant low == lowBefore
        invariant FirstNear(freq, RowFreqs, Tolerance) == FirstNear(freq, RowFreqs[j..], Tolerance)
      {
        if Abs(freq - RowFreqs[j] as real) < Tolerance {
          low := Some(RowFreqs[j]);
          break;
        }
        assert RowFreqs[j..][1..] == RowFreqs[j + 1..];
        j := j + 1;
      }
      j := 0;
      while j < |ColFreqs|
        invariant 0 <= j <= |ColFreqs|
        invariant high == highBefore
        invariant FirstNear(freq, ColFreqs, Tolerance) == FirstNear(freq, ColFreqs[j..], Tolerance)
      {
        if Abs(freq - ColFreqs[j] as real) < Tolerance {
          high := Some(ColFreqs[j]);
          break;
        }
        assert ColFreqs[j..][1..] == ColFreqs[j + 1..];
        j := j + 1;
      }
    }
    assert peaks[..|peaks|] == peaks;
  }

  /** The scan over the keys of `order`, each a key of the table: the first whose pair is detected. */
  method ScanKeys(order: seq<char>, low: Option<int>, high: Option<int>) returns (key: Option<char>)
    requires forall k | k in order :: k in DesktopTable
    ensures key == KeyIn(order, low, high)
  {
    key := None;
    var i := 0;
    while i < |order|
      invariant 0 <= i <= |order|
      invariant key == None
      invariant KeyIn(order, low, high) == KeyIn(order[i..], low, high)
    {
      var k := order[i];
      KeyInAt(order, i, low, high);
      var pair := DesktopTable[k];
      if low == Some(pair.low) && high == Some(pair.high) {
        key := Some(k);
        break;
      }
      i := i + 1;
    }
  }

  /** The table scan of `decode_dtmf_from_signal`: the first key, in table order, whose pair is detected. */
  method ResolveKey(low: Option<int>, high: Option<int>) returns (key: Option<char>)
    ensures key == KeyFor(low, high)
  {
    DesktopKeyOrderIsKeys();
    key := ScanKeys(DesktopKeyOrder, low, high);
  }

  /** One pass of the decoding loop's body over a window: classify its peaks, then scan the table. */
  method FrameKey(chunk: seq<int>, peaksOf: seq<int> -> seq<real>) returns (key: Option<char>)
    ensures key == FrameSymbol(peaksOf(chunk), Tolerance)
  {
    var low, high := ClassifyPeaks(peaksOf(chunk));
    key := ResolveKey(low, high);
  }

  /** The desktop output over a window and the windows after it. */
  lemma DecodedFromCons(chunk: seq<int>, rest: seq<seq<int>>, peaksOf: seq<int> -> seq<real>, tol: real)
    ensures DecodedFrom([chunk] + rest, peaksOf, tol)
            == Emitted(FrameSymbol(peaksOf(chunk), tol)) + DecodedFrom(rest, peaksOf, tol)
  {
    assert ([chunk] + rest)[1..] == rest;
  }

  /**
   * One turn of the decoding loop: the output still to come from `index` on is
   * what the window emits, then the output from the next window.
   */
  lemma DecodedStep(s: seq<int>, tone: nat, step: nat, index: nat, after: nat, peaksOf: seq<int> -> seq<real>, tol: real,
                    emitted: string, done: string, total: string)
    requires step > 0 && index + tone <= |s| && after == index + step
    requires emitted == Emitted(FrameSymbol(peaksOf(s[index .. index + tone]), tol))
    requires done + DecodedFrom(WindowsFrom(s, tone, step, index), peaksOf, tol) == total
    ensures (done + emitted) + DecodedFrom(WindowsFrom(s, tone, step, after), peaksOf, tol) == total
  {
    Framing.WindowsFromCons(s, tone, step, index, after);
    DecodedFromCons(s[index .. index + tone], WindowsFrom(s, tone, step, after), peaksOf, tol);
    Arith.AppendAssoc(done, emitted, DecodedFrom(WindowsFrom(s, tone, step, after), peaksOf, tol));
  }

  /** Once a whole window no longer fits, nothing more is decoded. */
  lemma DecodedAtEnd(s: seq<int>, tone: nat, step: nat, index: nat, peaksOf: seq<int> -> seq<real>, tol: real,
                     done: string)
    requires step > 0 && index + tone > |s|
    ensures done + DecodedFrom(WindowsFrom(s, tone, step, index), peaksOf, tol) == done
  {
    assert WindowsFrom(s, tone, step, index) == [];
    assert done + [] == done;
  }

  /**
   * The body of the decoding loop: decode the window at `index` and append its
   * key, when it has one, to what was decoded so far.
   */
  method DecodeWindowAt(signal: seq<int>, toneSamples: nat, step: nat, index: nat, after: nat,
                        peaksOf: seq<int> -> seq<real>, decoded: string, ghost total: string)
    returns (next: string)
    requires step > 0 && index + toneSamples <= |signal| && after == index + step
    requires decoded + DecodedFrom(WindowsFrom(signal, toneSamples, step, index), peaksOf, Tolerance) == total
    ensures next + DecodedFrom(WindowsFrom(signal, toneSamples, step, after), peaksOf, Tolerance) == total
  {
    var chunk := signal[index .. index + toneSamples];
    var key := FrameKey(chunk, peaksOf);
    next := decoded;
    if key.Some? {
      next := next + [key.value];
    }
    DecodedStep(signal, toneSamples, step, index, after, peaksOf, Tolerance, Emitted(key), decoded, total);
    assert next == decoded + Emitted(key);
  }

  /**
   * `decode_dtmf_from_signal`: windows of `toneSamples` samples every
   * `toneSamples + pauseSamples`, while a whole window fits; `peaksOf` stands
   * for the spectrum and the choice of its ten strongest bins.
   */
  method DecodeDtmfFromSignal(signal: seq<int>, toneSamples: nat, pauseSamples: nat, peaksOf: seq<int> -> seq<real>)
    returns (decoded: string)
    requires toneSamples + pauseSamples > 0
    ensures decoded == DecodedFrom(Windows(signal, toneSamples, toneSamples + pauseSamples), peaksOf, Tolerance)
    ensures |decoded| <= |Windows(signal, toneSamples, toneSamples + pauseSamples)|
    ensures forall c | c in decoded :: c in DesktopTable
  {
    var step := toneSamples + pauseSamples;
    var index := 0;
    decoded := "";
    ghost var total := DecodedFrom(Windows(signal, toneSamples, step), peaksOf, Tolerance);
    assert decoded + total == total;
    while index + toneSamples <= |signal|
      invariant decoded + DecodedFrom(WindowsFrom(signal, toneSamples, step, index), peaksOf, Tolerance) == total
      decreases |signal| - index
    {
      var after := index + step;
      decoded := DecodeWindowAt(signal, toneSamples, step, index, after, peaksOf, decoded, total);
      index := after;
    }
    DecodedAtEnd(signal, toneSamples, step, index, peaksOf, Tolerance, decoded);
  }
}
