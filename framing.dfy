/**
 * The two framers: cut `tone`-sample windows out of a signal at offsets
 * 0, step, 2 * step, ... and stop at the first window that does not fit.
 */
module Framing {
  import Arith

  /** Start of window `k`. */
  function Offset(k: nat, step: nat): nat
  {
    k * step
  }

  /**
   * Windows of the desktop decoder, from `index` on: while
   * `index + tone <= |s|`, take `s[index .. index + tone]` and advance by `step`.
   */
  function WindowsFrom(s: seq<int>, tone: nat, step: nat, index: nat): seq<seq<int>>
    requires step > 0
    decreases |s| - index
  {
    if index + tone <= |s| then [s[index .. index + tone]] + WindowsFrom(s, tone, step, index + step)
    else []
  }

  function Windows(s: seq<int>, tone: nat, step: nat): seq<seq<int>>
    requires step > 0
  {
    WindowsFrom(s, tone, step, 0)
  }

  /** A whole window at `index` is followed by the windows from one step later. */
  lemma WindowsFromCons(s: seq<int>, tone: nat, step: nat, index: nat, after: nat)
    requires step > 0 && index + tone <= |s| && after == index + step
    ensures WindowsFrom(s, tone, step, index) == [s[index .. index + tone]] + WindowsFrom(s, tone, step, after)
  {
  }

  /**
   * Segments of the web decoder, from `i` on: for `i` in `range(i, |s|, step)`,
   * the slice `s[i : i + tone]` (cut short at the end of the signal), stopping
   * at the first slice shorter than `tone`.
   */
  function SegmentsFrom(s: seq<int>, tone: nat, step: nat, i: nat): seq<seq<int>>
    requires step > 0
    decreases |s| - i
  {
    if i < |s| then
      var segment := s[i .. if i + tone <= |s| then i + tone else |s|];
      if |segment| < tone then [] else [segment] + SegmentsFrom(s, tone, step, i + step)
    else []
  }

  function Segments(s: seq<int>, tone: nat, step: nat): seq<seq<int>>
    requires step > 0
  {
    SegmentsFrom(s, tone, step, 0)
  }

  lemma {:induction false} WindowsFromAt(s: seq<int>, tone: nat, step: nat, index: nat)
    requires step > 0
    ensures var w := WindowsFrom(s, tone, step, index);
            && (forall k: nat | k < |w| ::
                  index + Offset(k, step) + tone <= |s| && w[k] == s[index + Offset(k, step) .. index + Offset(k, step) + tone])
            && index + Offset(|w|, step) + tone > |s|
    decreases |s| - index
  {
    var w := WindowsFrom(s, tone, step, index);
    if index + tone <= |s| {
      var after := index + step;
      var rest := WindowsFrom(s, tone, step, after);
      WindowsFromCons(s, tone, step, index, after);
      WindowsFromAt(s, tone, step, after);
      forall k: nat | k < |w|
        ensures index + Offset(k, step) + tone <= |s| && w[k] == s[index + Offset(k, step) .. index + Offset(k, step) + tone]
      {
        if k > 0 {
          Arith.MulSucc(k - 1, step);
          assert w[k] == rest[k - 1];
        }
      }
      Arith.MulSucc(|rest|, step);
    }
  }

  /**
   * The desktop loop visits exactly the offsets `k * step` with
   * `k * step + tone <= |s|`, and window `k` is `s[k * step .. k * step + tone]`.
   */
  lemma WindowsAt(s: seq<int>, tone: nat, step: nat)
    requires step > 0
    ensures var w := Windows(s, tone, step);
            && (forall k: nat :: k < |w| <==> Offset(k, step) + tone <= |s|)
            && (forall k: nat | k < |w| :: w[k] == s[Offset(k, step) .. Offset(k, step) + tone])
  {
    var w := Windows(s, tone, step);
    WindowsFromAt(s, tone, step, 0);
    forall k: nat | Offset(k, step) + tone <= |s|
      ensures k < |w|
    {
      if k >= |w| {
        Arith.MulMonotone(|w|, k, step);
      }
    }
  }

  /** Frame count: `(L - tone) / step + 1` windows when `L >= tone`, none otherwise. */
  lemma WindowCount(s: seq<int>, tone: nat, step: nat)
    requires step > 0
    ensures |Windows(s, tone, step)| == if |s| >= tone then (|s| - tone) / step + 1 else 0
  {
    var n := |Windows(s, tone, step)|;
    WindowsFromAt(s, tone, step, 0);
    assert Offset(n, step) + tone > |s|;
    if n > 0 {
      assert Offset(n - 1, step) + tone <= |s|;
      Arith.MulSucc(n - 1, step);
      Arith.DivIsQuotient(|s| - tone, step, n - 1);
    }
  }

  lemma {:induction false} SegmentsFromAt(s: seq<int>, tone: nat, step: nat, i: nat)
    requires step > 0
    ensures var g := SegmentsFrom(s, tone, step, i);
            && (forall k: nat | k < |g| ::
                  i + Offset(k, step) < |s| && i + Offset(k, step) + tone <= |s|
                  && g[k] == s[i + Offset(k, step) .. i + Offset(k, step) + tone])
            && (i + Offset(|g|, step) >= |s| || i + Offset(|g|, step) + tone > |s|)
    decreases |s| - i
  {
    var g := SegmentsFrom(s, tone, step, i);
    if i < |s| && i + tone <= |s| {
      var after := i + step;
      var rest := SegmentsFrom(s, tone, step, after);
      SegmentsFromCons(s, tone, step, i, after);
      SegmentsFromAt(s, tone, step, after);
      forall k: nat | k < |g|
        ensures i + Offset(k, step) < |s| && i + Offset(k, step) + tone <= |s|
                && g[k] == s[i + Offset(k, step) .. i + Offset(k, step) + tone]
      {
        if k > 0 {
          Arith.MulSucc(k - 1, step);
          assert g[k] == rest[k - 1];
        }
      }
      Arith.MulSucc(|rest|, step);
    }
  }

  /** A whole segment at `i` is followed by the segments from one step later. */
  lemma SegmentsFromCons(s: seq<int>, tone: nat, step: nat, i: nat, after: nat)
    requires step > 0 && i < |s| && i + tone <= |s| && after == i + step
    ensures SegmentsFrom(s, tone, step, i) == [s[i .. i + tone]] + SegmentsFrom(s, tone, step, after)
  {
  }

  /** Past the end of the signal, or at a short segment, the web loop stops. */
  lemma SegmentsFromEnd(s: seq<int>, tone: nat, step: nat, i: nat)
    requires step > 0 && (i >= |s| || i + tone > |s|)
    ensures SegmentsFrom(s, tone, step, i) == []
  {
  }

  /**
   * The web loop appends a segment for exactly the `k` with `k * step < |s|`
   * (the `range` bound) and `k * step + tone <= |s|` (no `break`), and
   * segment `k` is `s[k * step .. k * step + tone]`.
   */
  lemma SegmentsAt(s: seq<int>, tone: nat, step: nat)
    requires step > 0
    ensures var g := Segments(s, tone, step);
            && (forall k: nat :: k < |g| <==> Offset(k, step) < |s| && Offset(k, step) + tone <= |s|)
            && (forall k: nat | k < |g| :: g[k] == s[Offset(k, step) .. Offset(k, step) + tone])
  {
    var g := Segments(s, tone, step);
    SegmentsFromAt(s, tone, step, 0);
    forall k: nat | Offset(k, step) < |s| && Offset(k, step) + tone <= |s|
      ensures k < |g|
    {
      if k >= |g| {
        Arith.MulMonotone(|g|, k, step);
      }
    }
  }

  /** With a non-empty tone the two framers cut the same windows. */
  lemma {:induction false} SegmentsAreWindows(s: seq<int>, tone: nat, step: nat, i: nat)
    requires step > 0 && tone > 0
    ensures SegmentsFrom(s, tone, step, i) == WindowsFrom(s, tone, step, i)
    decreases |s| - i
  {
    if i < |s| && i + tone <= |s| {
      SegmentsAreWindows(s, tone, step, i + step);
    }
  }

  /** Segment count: as the desktop count for a non-empty tone; `ceil(L / step)` for `tone == 0`. */
  lemma SegmentCount(s: seq<int>, tone: nat, step: nat)
    requires step > 0
    ensures |Segments(s, tone, step)| == if tone == 0 then (|s| + step - 1) / step
                                         else if |s| >= tone then (|s| - tone) / step + 1
                                         else 0
  {
    var n := |Segments(s, tone, step)|;
    if tone > 0 {
      SegmentsAreWindows(s, tone, step, 0);
      WindowCount(s, tone, step);
    } else {
      SegmentsFromAt(s, tone, step, 0);
      assert Offset(n, step) >= |s|;
      if n > 0 {
        assert Offset(n - 1, step) < |s|;
        Arith.MulSucc(n - 1, step);
      }
      Arith.DivIsQuotient(|s| + step - 1, step, n);
    }
  }
}
