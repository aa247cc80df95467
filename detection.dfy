/**
 * Classification of spectral peaks against the row and column frequencies,
 * with an absolute, strict tolerance. The spectrum and the peak picking are
 * not modelled: the classifier is given the candidate peak frequencies in the
 * order the decoder visits them.
 */
module Detection {
  import opened Wrappers
  import opened Keypad

  function Abs(x: real): real
  {
    if x < 0.0 then -x else x
  }

  /** `abs(f - c) < tol`: a peak exactly `tol` away does not match. */
  predicate Near(f: real, c: int, tol: real)
  {
    Abs(f - c as real) < tol
  }

  /** The desktop's inner loop: the first frequency of `freqs` near `f` (it breaks on a match). */
  function FirstNear(f: real, freqs: seq<int>, tol: real): (r: Option<int>)
    ensures r.Some? ==> r.value in freqs && Near(f, r.value, tol)
    ensures r.None? <==> forall c | c in freqs :: !Near(f, c, tol)
  {
    if freqs == [] then None
    else if Near(f, freqs[0], tol) then Some(freqs[0])
    else FirstNear(f, freqs[1..], tol)
  }

  /** The web decoder's inner loop: the last frequency of `freqs` near `f` (it overwrites, no break). */
  function LastNear(f: real, freqs: seq<int>, tol: real): (r: Option<int>)
    ensures r.Some? ==> r.value in freqs && Near(f, r.value, tol)
    ensures r.None? <==> forall c | c in freqs :: !Near(f, c, tol)
  {
    if freqs == [] then None
    else if Near(f, freqs[|freqs| - 1], tol) then Some(freqs[|freqs| - 1])
    else LastNear(f, freqs[..|freqs| - 1], tol)
  }

  /** The band value one peak sets, under the inner loop's policy. */
  function Match(f: real, freqs: seq<int>, tol: real, stopAtFirst: bool): Option<int>
  {
    if stopAtFirst then FirstNear(f, freqs, tol) else LastNear(f, freqs, tol)
  }

  /**
   * The band value after visiting `peaks` in order, starting from `None`:
   * every peak that matches overwrites it, so the last matching peak decides.
   */
  function Detected(peaks: seq<real>, freqs: seq<int>, tol: real, stopAtFirst: bool): (r: Option<int>)
    ensures r.Some? ==> r.value in freqs
  {
    if peaks == [] then None
    else
      match Match(peaks[|peaks| - 1], freqs, tol, stopAtFirst)
      case Some(c) => Some(c)
      case None => Detected(peaks[..|peaks| - 1], freqs, tol, stopAtFirst)
  }

  /** The last matching peak decides, whatever the earlier peaks matched. */
  lemma {:induction false} DetectedIsLastMatch(peaks: seq<real>, freqs: seq<int>, tol: real, stopAtFirst: bool, i: nat)
    requires i < |peaks|
    requires Match(peaks[i], freqs, tol, stopAtFirst).Some?
    requires forall j | i < j < |peaks| :: Match(peaks[j], freqs, tol, stopAtFirst).None?
    ensures Detected(peaks, freqs, tol, stopAtFirst) == Match(peaks[i], freqs, tol, stopAtFirst)
  {
    if i < |peaks| - 1 {
      var init := peaks[..|peaks| - 1];
      assert Match(peaks[|peaks| - 1], freqs, tol, stopAtFirst).None?;
      assert init[i] == peaks[i];
      DetectedIsLastMatch(init, freqs, tol, stopAtFirst, i);
    }
  }

  /** Nothing is detected exactly when no peak matches any frequency of the band. */
  lemma {:induction false} DetectedNone(peaks: seq<real>, freqs: seq<int>, tol: real, stopAtFirst: bool)
    ensures Detected(peaks, freqs, tol, stopAtFirst).None?
            <==> forall i | 0 <= i < |peaks| :: Match(peaks[i], freqs, tol, stopAtFirst).None?
  {
    if peaks != [] {
      var init := peaks[..|peaks| - 1];
      DetectedNone(init, freqs, tol, stopAtFirst);
      assert forall i | 0 <= i < |init| :: init[i] == peaks[i];
    }
  }

  /** Ascending, with neighbouring frequencies at least `gap` apart. */
  ghost predicate Separated(freqs: seq<int>, gap: int)
  {
    forall i, j | 0 <= i < j < |freqs| :: freqs[i] + gap <= freqs[j]
  }

  /** Rows are at least 73 Hz apart, columns at least 127 Hz. */
  lemma BandsSeparated()
    ensures Separated(RowFreqs, 73)
    ensures Separated(ColFreqs, 127)
  {
  }

  /** When the band's spacing exceeds twice the tolerance, at most one frequency is near a peak. */
  lemma AtMostOneNear(f: real, freqs: seq<int>, tol: real, gap: int)
    requires Separated(freqs, gap) && 2.0 * tol <= gap as real
    ensures forall c, d | c in freqs && d in freqs && Near(f, c, tol) && Near(f, d, tol) :: c == d
  {
    forall c, d | c in freqs && d in freqs && Near(f, c, tol) && Near(f, d, tol)
      ensures c == d
    {
      var i :| 0 <= i < |freqs| && freqs[i] == c;
      var j :| 0 <= j < |freqs| && freqs[j] == d;
    }
  }

  /** With at most one frequency near each peak, breaking on the first match changes nothing. */
  lemma {:induction false} BreakIsIrrelevant(peaks: seq<real>, freqs: seq<int>, tol: real, gap: int)
    requires Separated(freqs, gap) && 2.0 * tol <= gap as real
    ensures Detected(peaks, freqs, tol, true) == Detected(peaks, freqs, tol, false)
  {
    if peaks != [] {
      var f := peaks[|peaks| - 1];
      AtMostOneNear(f, freqs, tol, gap);
      assert FirstNear(f, freqs, tol) == LastNear(f, freqs, tol);
      BreakIsIrrelevant(peaks[..|peaks| - 1], freqs, tol, gap);
    }
  }

  /**
   * Under either decoder's tolerance (15 Hz or 10 Hz), a peak selects a row
   * exactly when it is near that row, and likewise for columns.
   */
  lemma MatchIsNear(f: real, tol: real, stopAtFirst: bool, c: int)
    requires 0.0 < tol <= 36.5
    ensures Match(f, RowFreqs, tol, stopAtFirst) == Some(c) <==> c in RowFreqs && Near(f, c, tol)
    ensures Match(f, ColFreqs, tol, stopAtFirst) == Some(c) <==> c in ColFreqs && Near(f, c, tol)
  {
    BandsSeparated();
    AtMostOneNear(f, RowFreqs, tol, 73);
    AtMostOneNear(f, ColFreqs, tol, 127);
  }

  /** The tolerance bound is exclusive: a peak exactly `tol` Hz off does not match. */
  lemma ToleranceIsStrict(c: int, tol: real)
    ensures !Near(c as real + tol, c, tol) && !Near(c as real - tol, c, tol)
  {
  }
}
