/**
 * The mobile dialer's encoder: at 8000 samples per second, half a second of
 * tone and a tenth of a second of silence per digit of its twelve-key table,
 * skipping every other character (the letters A-D included).
 */
module Dialer {
  import opened Keypad
  import opened Synthesis

  /** `int(8000 * 0.5)`. */
  const ToneSamples: nat := 4000

  /** `int(8000 * 0.1)`. */
  const PauseSamples: nat := 800

  /** One digit's share of the signal: `ToneSamples + PauseSamples`. */
  const BlockSamples: nat := 4800

  /** The signal the dialer builds for `digits`. */
  function DialerSignal(digits: string, wave: Waveform): seq<int>
  {
    Layout(digits, DialerTable, ToneSamples, PauseSamples, wave)
  }

  /**
   * `generate_dtmf_tone`: for each digit in the table, append its tone block
   * and 800 zeros. `wave` stands for the sum of sines and the 16-bit scaling.
   */
  method GenerateDtmfTone(digits: string, wave: Waveform) returns (signal: seq<int>)
    ensures signal == DialerSignal(digits, wave)
    ensures |signal| == |ValidKeys(digits, DialerTable)| * BlockSamples
  {
    signal := [];
    for i := 0 to |digits|
      invariant signal == Layout(digits[..i], DialerTable, ToneSamples, PauseSamples, wave)
    {
      var digit := digits[i];
      assert digits[..i + 1][..i] == digits[..i];
      if digit in DialerTable {
        var pair := DialerTable[digit];
        var tone := ToneBlock(pair, ToneSamples, wave);
        signal := signal + (tone + Zeros(PauseSamples));
      }
    }
    assert digits[..|digits|] == digits;
    LayoutLength(digits, DialerTable, ToneSamples, PauseSamples, wave);
  }

  /** The letters A-D are desktop keys but not dialer digits. */
  lemma LettersAreNotDigits()
    ensures forall c | c in "ABCD" :: c in DesktopTable && c !in DialerTable
  {
  }

  /** Appending a letter A-D to the input leaves the signal unchanged. */
  lemma LetterIsSilent(digits: string, c: char, wave: Waveform)
    requires c in "ABCD"
    ensures DialerSignal(digits + [c], wave) == DialerSignal(digits, wave)
  {
    assert (digits + [c])[..|digits|] == digits;
    LettersAreNotDigits();
  }

  /** An input of letters A-D only gives an empty signal. */
  lemma LettersOnlyAreSilent(digits: string, wave: Waveform)
    requires forall c | c in digits :: c in "ABCD"
    ensures DialerSignal(digits, wave) == []
  {
    LettersAreNotDigits();
    NoValidKeysNoSignal(digits, DialerTable, ToneSamples, PauseSamples, wave);
  }

  /**
   * Without the letters A-D, the dialer lays out its signal as the desktop
   * encoder does for the same input, tone and pause lengths, given the same
   * waveform (the two programs scale their sines differently).
   */
  lemma {:induction false} DialerMatchesDesktop(digits: string, wave: Waveform)
    requires forall c | c in digits :: c !in "ABCD"
    ensures DialerSignal(digits, wave) == Layout(digits, DesktopTable, ToneSamples, PauseSamples, wave)
  {
    if digits != [] {
      var init := digits[..|digits| - 1];
      var last := digits[|digits| - 1];
      assert forall c | c in init :: c in digits;
      DialerMatchesDesktop(init, wave);
      assert last in digits;
      DialerAgreesWithDesktop();
      DialerKeysAreTwelve();
      assert last in DialerTable <==> last in DesktopTable;
    }
  }

  /**
   * Block `k` of the dialer's signal, samples `4800 * k` to `4800 * (k + 1)`,
   * is the tone of the `k`-th valid digit followed by 800 zeros.
   */
  lemma DialerBlockAt(digits: string, wave: Waveform, k: nat)
    requires k < |ValidKeys(digits, DialerTable)|
    ensures var s, d := DialerSignal(digits, wave), ValidKeys(digits, DialerTable)[k];
            && k * BlockSamples + BlockSamples <= |s|
            && d in DialerTable
            && s[k * BlockSamples .. k * BlockSamples + ToneSamples] == ToneBlock(DialerTable[d], ToneSamples, wave)
            && s[k * BlockSamples + ToneSamples .. k * BlockSamples + BlockSamples] == Zeros(PauseSamples)
  {
    LayoutBlockAt(digits, DialerTable, ToneSamples, PauseSamples, wave, k);
  }
}
