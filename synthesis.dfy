/**
 * Sequence synthesis shared by the desktop encoder and the mobile dialer:
 * walk the input, skip symbols the table does not know, and append one tone
 * block followed by a block of silence per known symbol.
 */
module Synthesis {
  import opened Keypad
  import Arith

  /**
   * `wave(p, i)` is sample `i` of the tone for pair `p`. It stands for the sum of
   * two sines at `p.low` and `p.high` (phase 0 at sample 0), scaled and cast to
   * integer samples; only the fact that it depends on the pair and the sample
   * index alone matters here.
   */
  type Waveform = (FreqPair, nat) -> int

  /** One tone block of `toneSamples` samples for pair `p`. */
  function ToneBlock(p: FreqPair, toneSamples: nat, wave: Waveform): (r: seq<int>)
    ensures |r| == toneSamples
  {
    seq(toneSamples, i requires 0 <= i => wave(p, i))
  }

  /** A pause: `n` zero samples. */
  function Zeros(n: nat): (r: seq<int>)
    ensures |r| == n && forall i | 0 <= i < n :: r[i] == 0
  {
    seq(n, _ => 0)
  }

  /** The symbols of `keys` that are keys of `table`, in input order. */
  function ValidKeys(keys: string, table: map<char, FreqPair>): (r: string)
    ensures forall c | c in r :: c in table
  {
    if keys == [] then []
    else
      var init := ValidKeys(keys[..|keys| - 1], table);
      assert keys == keys[..|keys| - 1] + [keys[|keys| - 1]];
      if keys[|keys| - 1] in table then init + [keys[|keys| - 1]] else init
  }

  /**
   * The signal the synthesis loop builds: for each symbol of `keys` in order,
   * if it is in `table`, its tone block followed by `pauseSamples` zeros.
   */
  function Layout(keys: string, table: map<char, FreqPair>, toneSamples: nat, pauseSamples: nat, wave: Waveform): seq<int>
  {
    if keys == [] then []
    else
      var key := keys[|keys| - 1];
      Layout(keys[..|keys| - 1], table, toneSamples, pauseSamples, wave)
        + (if key in table then ToneBlock(table[key], toneSamples, wave) + Zeros(pauseSamples) else [])
  }

  /** An input made only of known symbols is kept whole. */
  lemma {:induction false} ValidKeysOfKnown(keys: string, table: map<char, FreqPair>)
    requires forall c | c in keys :: c in table
    ensures ValidKeys(keys, table) == keys
  {
    if keys != [] {
      var init := keys[..|keys| - 1];
      assert forall c | c in init :: c in keys;
      ValidKeysOfKnown(init, table);
      assert keys[|keys| - 1] in keys;
      assert keys == init + [keys[|keys| - 1]];
    }
  }

  /** Each known symbol contributes one tone block and one pause, the others nothing. */
  lemma {:induction false} LayoutLength(keys: string, table: map<char, FreqPair>, toneSamples: nat, pauseSamples: nat, wave: Waveform)
    ensures |Layout(keys, table, toneSamples, pauseSamples, wave)|
            == |ValidKeys(keys, table)| * (toneSamples + pauseSamples)
  {
    if keys != [] {
      var init := keys[..|keys| - 1];
      var b := toneSamples + pauseSamples;
      LayoutLength(init, table, toneSamples, pauseSamples, wave);
      var n := |ValidKeys(init, table)|;
      if keys[|keys| - 1] in table {
        assert |ValidKeys(keys, table)| == n + 1;
        assert |Layout(keys, table, toneSamples, pauseSamples, wave)| == n * b + b;
        Arith.MulSucc(n, b);
      } else {
        assert |ValidKeys(keys, table)| == n;
        assert |Layout(keys, table, toneSamples, pauseSamples, wave)| == n * b;
      }
    }
  }

  /** Unknown symbols are skipped: the signal is that of the known symbols alone. */
  lemma {:induction false} LayoutOfValidKeys(keys: string, table: map<char, FreqPair>, toneSamples: nat, pauseSamples: nat, wave: Waveform)
    ensures Layout(keys, table, toneSamples, pauseSamples, wave)
            == Layout(ValidKeys(keys, table), table, toneSamples, pauseSamples, wave)
  {
    if keys != [] {
      var init := keys[..|keys| - 1];
      LayoutOfValidKeys(init, table, toneSamples, pauseSamples, wave);
      var v := ValidKeys(keys, table);
      if keys[|keys| - 1] in table {
        assert v[..|v| - 1] == ValidKeys(init, table);
      }
    }
  }

  /** An input with no known symbol gives an empty signal. */
  lemma {:induction false} NoValidKeysNoSignal(keys: string, table: map<char, FreqPair>, toneSamples: nat, pauseSamples: nat, wave: Waveform)
    requires forall c | c in keys :: c !in table
    ensures Layout(keys, table, toneSamples, pauseSamples, wave) == []
  {
    if keys != [] {
      var init := keys[..|keys| - 1];
      assert forall c | c in init :: c in keys;
      NoValidKeysNoSignal(init, table, toneSamples, pauseSamples, wave);
      assert keys[|keys| - 1] in keys;
    }
  }

  /** Slicing a concatenation inside its first part. */
  lemma SliceOfPrefix(a: seq<int>, c: seq<int>, i: nat, j: nat)
    requires i <= j <= |a|
    ensures (a + c)[i..j] == a[i..j]
  {
  }

  /** The two parts of a block appended after `a`. */
  lemma SliceOfAppended(a: seq<int>, tone: seq<int>, pause: seq<int>)
    ensures (a + (tone + pause))[|a|..|a| + |tone|] == tone
    ensures (a + (tone + pause))[|a| + |tone|..|a| + |tone| + |pause|] == pause
  {
  }

  /** The signal and the known symbols of `keys` from those of all but its last symbol. */
  lemma LayoutSnoc(keys: string, table: map<char, FreqPair>, toneSamples: nat, pauseSamples: nat, wave: Waveform)
    requires keys != []
    ensures var init, key := keys[..|keys| - 1], keys[|keys| - 1];
            && (key in table ==>
                  && ValidKeys(keys, table) == ValidKeys(init, table) + [key]
                  && Layout(keys, table, toneSamples, pauseSamples, wave)
                     == Layout(init, table, toneSamples, pauseSamples, wave)
                        + (ToneBlock(table[key], toneSamples, wave) + Zeros(pauseSamples)))
            && (key !in table ==>
                  && ValidKeys(keys, table) == ValidKeys(init, table)
                  && Layout(keys, table, toneSamples, pauseSamples, wave)
                     == Layout(init, table, toneSamples, pauseSamples, wave))
  {
  }

  /**
   * Block `k` of the signal (samples `k * B` to `(k + 1) * B` with
   * `B = toneSamples + pauseSamples`) is the tone of the `k`-th known symbol
   * followed by `pauseSamples` zeros.
   */
  lemma {:induction false} LayoutBlockAt(keys: string, table: map<char, FreqPair>, toneSamples: nat, pauseSamples: nat, wave: Waveform, k: nat)
    requires k < |ValidKeys(keys, table)|
    ensures var s, b := Layout(keys, table, toneSamples, pauseSamples, wave), toneSamples + pauseSamples;
            && k * b + b <= |s|
            && ValidKeys(keys, table)[k] in table
            && s[k * b .. k * b + toneSamples] == ToneBlock(table[ValidKeys(keys, table)[k]], toneSamples, wave)
            && s[k * b + toneSamples .. k * b + b] == Zeros(pauseSamples)
  {
    var b := toneSamples + pauseSamples;
    var init := keys[..|keys| - 1];
    var key := keys[|keys| - 1];
    var vi := ValidKeys(init, table);
    var si := Layout(init, table, toneSamples, pauseSamples, wave);
    LayoutSnoc(keys, table, toneSamples, pauseSamples, wave);
    if key !in table {
      LayoutBlockAt(init, table, toneSamples, pauseSamples, wave, k);
    } else {
      var tone := ToneBlock(table[key], toneSamples, wave);
      var block := tone + Zeros(pauseSamples);
      var start := k * b;
      LayoutLength(init, table, toneSamples, pauseSamples, wave);
      if k < |vi| {
        LayoutBlockAt(init, table, toneSamples, pauseSamples, wave, k);
        Arith.MulSucc(k, b);
        Arith.MulMonotone(k + 1, |vi|, b);
        SliceOfPrefix(si, block, start, start + toneSamples);
        SliceOfPrefix(si, block, start + toneSamples, start + b);
      } else {
        assert start == |si|;
        SliceOfAppended(si, tone, Zeros(pauseSamples));
      }
    }
  }
}
