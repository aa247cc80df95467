# DTMF keypad codec

This project models the codec at the heart of a small DTMF (dual-tone multi-frequency) toolkit. It is written in Dafny and the properties are proved. The toolkit implements the codec three times over:

- **Desktop encoder/decoder** (`dtmf_python_desktop_app.py`):
  - `generate_dtmf_sequence` turns a string into a signal: for every key of the sixteen-key table, a tone block followed by a pause of zeros.
  - `decode_dtmf_from_signal` cuts the signal into tone-length windows, one every tone + pause samples, while a whole window fits. It classifies each window's peak frequencies against the row and column frequencies with a strict 15 Hz tolerance. The first matching frequency of a band breaks the inner loop, and across peaks the last match overwrites. It then scans the table in insertion order and appends the key it finds; a frame it cannot resolve appends nothing.
- **Web decoder** (`app.py`):
  - The `index` and `decode` routes cut segments with `range(0, len(signal), step)` and stop at the first short segment.
  - `detect_dtmf_tone` classifies with a strict 10 Hz tolerance, where every match overwrites and no loop breaks. It looks up the (row, column) pair, or answers `'?'` when a band was not found, so every frame contributes one character.
- **Mobile dialer** (`dtmf_project.py`): `generate_dtmf_tone` lays out a 4000-sample tone and 800 zeros for each key of its twelve-key table, at 8000 samples per second. The letters A-D are not in that table.

The row/column grid is that of ITU-T Recommendation Q.23, Figure 1/Q.23.

Modules:

- `Keypad`: the three tables and the grid.
- `Synthesis`: the layout shared by both encoders.
- `Framing`: the two frame loops.
- `Detection`: tolerance matching under the break-on-first and overwrite policies.
- `DesktopApp`, `FlaskApp`, `Dialer`: the three programs, with their loops as methods proved against specification functions.
- `CodecProperties`: the properties that join them. These are the round trips from each encoder to both decoders:
  - desktop to desktop (`DesktopRoundTrip`);
  - desktop to web (`WebRoundTrip`);
  - dialer to web (`DialerToWebRoundTrip`);
  - dialer to desktop (`DialerToDesktopRoundTrip`).

  It also holds the relation between the two decoders on the same signal under shared settings (`PipelinesAgree`).
- `Wrappers` and `Arith`: helpers.

The signal is a `seq<int>`.

- A tone block is `ToneBlock(pair, toneSamples, wave)`. The parameter `wave` stands for the sum of sines, the normalisation and the 16-bit cast.
- The decoders see a frame only through `peaksOf`, which stands for the FFT and the peak picking.
- The round trips assume an ideal peak picker (`IdealPeaks`): the two peaks of a tone block are its row and column frequencies.

The web decoder writes `'?'` for every frame it cannot resolve, but the desktop decoder drops such frames without appending anything. The model follows each program's code. Given one step, a non-empty tone, one tolerance of at most 36.5 Hz and one peak picker for both decoders, `CodecProperties.PipelinesAgree` shows that this is the only difference: the desktop output is the web output with the `'?'` marks removed. The two programs, however, use different tolerances (15 Hz and 10 Hz) and different peak pickers. At their own tolerances they can even name different keys for the same frame: `CodecProperties.DesktopReadsFour` and `CodecProperties.WebReadsOne` give such a list of peaks.

## Model

| member | source | states |
|---|---|---|
| Keypad.DesktopTableIsBijection | dtmf_python_desktop_app.py:10-15 | the desktop table has exactly the sixteen keypad symbols as keys. Every pair lies on the row x column grid, no pair is used twice, and every grid pair is used. |
| Keypad.DesktopKeyOrderIsKeys | dtmf_python_desktop_app.py:74 | iterating the desktop dictionary visits exactly its keys |
| Keypad.DesktopKeyOrderIsDistinct | dtmf_python_desktop_app.py:74 | the iteration visits each of the sixteen keys once |
| Keypad.BandRanges | app.py:18-19 | rows lie in 697..941 Hz and columns in 1209..1633 Hz, so no detected frequency is 0 |
| Keypad.FlaskTableIsBijection | app.py:12-19 | the web table is a bijection from the grid onto the sixteen symbols |
| Keypad.TablesAreInverse | app.py:12-17 | the web table and the desktop table are exact inverses of each other |
| Keypad.DialerTableIsSubMap | dtmf_project.py:11-16 | the dialer table has the twelve keys 0-9, `*` and `#`. It agrees with the desktop table on each, lies on the grid and is injective. |
| Synthesis.ToneBlock | dtmf_python_desktop_app.py:20 | a tone block has exactly `toneSamples` samples |
| Synthesis.Zeros | dtmf_python_desktop_app.py:29 | a pause of `n` samples is `n` zeros |
| Synthesis.ValidKeys | dtmf_python_desktop_app.py:30-31 | the kept symbols are all keys of the table |
| Synthesis.ValidKeysOfKnown | dtmf_python_desktop_app.py:30-31 | an input of known keys only is kept whole |
| Synthesis.LayoutLength | dtmf_python_desktop_app.py:26-34 | signal length = number of known keys x (tone + pause) |
| Synthesis.LayoutOfValidKeys | dtmf_python_desktop_app.py:30-31 | unknown characters are skipped: the signal equals the signal for the input filtered to table keys |
| Synthesis.NoValidKeysNoSignal | dtmf_python_desktop_app.py:28-31 | an input without a known key gives the empty signal |
| Synthesis.LayoutBlockAt | dtmf_python_desktop_app.py:29-33 | block `k` of the signal is the tone of the `k`-th known key, followed by `pause` zeros |
| DesktopApp.GenerateTone | dtmf_python_desktop_app.py:17-23 | a tone exists exactly for the table's keys (an unknown key is a lookup error) and has `toneSamples` samples |
| DesktopApp.GenerateDtmfSequence | dtmf_python_desktop_app.py:26-34 | the loop builds exactly the layout of the known keys, of length known keys x (tone + pause) |
| DesktopApp.KeyInFinds | dtmf_python_desktop_app.py:74-77 | a scan that finds a key finds one with exactly the detected pair, and finds none only when no key of the order has it |
| DesktopApp.KeyForResolves | dtmf_python_desktop_app.py:74-77 | the table scan resolves (low, high) to a key with that pair, and fails only when no key has it |
| DesktopApp.ClassifyPeaks | dtmf_python_desktop_app.py:62-73 | the nested peak loops, with their breaks, leave in each band the band's first frequency near the last peak that matches it, or `None` |
| DesktopApp.ScanKeys | dtmf_python_desktop_app.py:74-77 | the loop with `break` returns the first key in iteration order whose pair was detected |
| DesktopApp.ResolveKey | dtmf_python_desktop_app.py:74-77 | the scan over the dictionary returns the key for the detected pair |
| DesktopApp.FrameKey | dtmf_python_desktop_app.py:58-77 | one window's classification and table scan give the frame's symbol |
| DesktopApp.DecodedFrom | dtmf_python_desktop_app.py:57-79 | the desktop output is never longer than the number of frames, and every character of it is a key of the table |
| DesktopApp.DecodeWindowAt | dtmf_python_desktop_app.py:58-78 | one loop turn appends the window's key if it resolved, and keeps the rest of the output as specified |
| DesktopApp.DecodeDtmfFromSignal | dtmf_python_desktop_app.py:48-79 | the decoder's output is the resolved symbols of the windows at 0, step, 2 step, ... in order. It is no longer than the frame count, and every character is a key of the table. |
| Framing.WindowsFromAt | dtmf_python_desktop_app.py:57-78 | from any start, window `k` is the slice at `start + k * step`, and the loop stops at the first offset whose window does not fit |
| Framing.WindowsAt | dtmf_python_desktop_app.py:57-78 | the desktop loop visits exactly the offsets `k * step` with `k * step + tone <= len`, and window `k` is `s[k * step .. k * step + tone]` |
| Framing.WindowCount | dtmf_python_desktop_app.py:50-57 | frame count = `(len - tone) / step + 1` if `len >= tone`, else 0 |
| Framing.SegmentsFromAt | app.py:57-60 | from any start, segment `k` is the full slice at `start + k * step`; the loop ends past the end or at the first short segment |
| Framing.SegmentsAt | app.py:57-60 | the web loop appends a segment for exactly the `k` with `k * step < len` and `k * step + tone <= len`, and segment `k` is `s[k * step .. k * step + tone]` |
| Framing.SegmentsAreWindows | app.py:57-60 | with a non-empty tone the `range`/`break` loop cuts the same frames as the desktop `while` loop |
| Framing.SegmentCount | app.py:57-60 | the web frame count is the desktop frame count, or `ceil(len / step)` when the tone is empty (a framing the program does not get through, see below) |
| Detection.FirstNear | dtmf_python_desktop_app.py:66-69 | the break-on-first inner loop returns a frequency of the band strictly within the tolerance, and returns none only when no frequency is within it |
| Detection.LastNear | app.py:31-33 | the overwrite inner loop returns a frequency of the band strictly within the tolerance, and returns none only when no frequency is within it |
| Detection.Detected | app.py:29-36 | a detected band value is always one of the band's frequencies |
| Detection.DetectedIsLastMatch | dtmf_python_desktop_app.py:62-73 | across peaks, the last peak that matches decides the band value, whatever earlier peaks matched |
| Detection.DetectedNone | app.py:29-36 | a band stays undetected exactly when no peak matches any of its frequencies |
| Detection.BandsSeparated | app.py:18-19 | rows are at least 73 Hz apart, columns at least 127 Hz |
| Detection.AtMostOneNear | dtmf_python_desktop_app.py:66-73 | when the band's spacing is at least twice the tolerance, at most one frequency is near any peak |
| Detection.BreakIsIrrelevant | dtmf_python_desktop_app.py:69-73 | for such bands the desktop's inner `break` does not change the detected values |
| Detection.MatchIsNear | app.py:30-36 | under any tolerance up to 36.5 Hz, a peak selects a row (column) exactly when that row (column) is strictly within the tolerance, under either policy |
| Detection.ToleranceIsStrict | app.py:32-35 | a peak exactly `tol` Hz off a frequency does not match it |
| FlaskApp.GridPairIsKey | app.py:12-19 | every row/column pair is a key of the web table, maps to a keypad symbol, and has truthy parts |
| FlaskApp.LookupResolves | app.py:37 | the lookup is a symbol exactly when both bands were found, and then the table's symbol for the pair; otherwise `'?'` |
| FlaskApp.ToneSymbolSpec | app.py:29-37 | `detect_dtmf_tone` returns `'?'` or one of the sixteen symbols. It returns `'?'` exactly when a band has no peak within tolerance, and otherwise the symbol of the detected pair. |
| FlaskApp.MatchBand | app.py:31-36 | an inner loop without break leaves the band's last frequency near the peak, or the earlier value when none is near |
| FlaskApp.DetectDtmfTone | app.py:21-37 | the nested loops and the truthiness test compute the symbol of the frame's peaks with the 10 Hz tolerance |
| FlaskApp.FlaskDecoded | app.py:56-64 | the web output has exactly one character per frame |
| FlaskApp.FlaskDecodedAt | app.py:57-64 | character `k` of the web output is the detected symbol of frame `k` |
| FlaskApp.DecodeSegmentAt | app.py:58-62 | one loop turn appends the segment's symbol, `'?'` included |
| FlaskApp.DecodeSegments | app.py:56-64 | the frame loop's output is the symbols of the complete segments, in order |
| FlaskApp.DecodedSegmentsAt | app.py:83-90 | the output has a character for exactly the `k` whose segment at `k * step` is complete, and character `k` is that segment's symbol |
| Dialer.GenerateDtmfTone | dtmf_project.py:46-57 | the loop builds the layout of the dialer's known digits, valid digits x 4800 samples long |
| Dialer.LettersAreNotDigits | dtmf_project.py:11-16 | A-D are desktop keys but not dialer keys |
| Dialer.LetterIsSilent | dtmf_project.py:50-51 | appending a letter A-D leaves the signal unchanged |
| Dialer.LettersOnlyAreSilent | dtmf_project.py:50-51 | an input of letters A-D only gives an empty signal |
| Dialer.DialerMatchesDesktop | dtmf_project.py:50-55 | without A-D the dialer's signal is the desktop's layout for the same tone and pause lengths |
| Dialer.DialerBlockAt | dtmf_project.py:53-55 | block `k` (samples `4800 k` on) is the tone of the `k`-th valid digit and then 800 zeros |
| CodecProperties.PairPeaksClassify | app.py:29-36 | for any tolerance `tol` with 0 < `tol` <= 36.5 Hz, the two peaks of a grid pair are classified as exactly its row and its column, under either policy |
| CodecProperties.PairPeaksDecode | app.py:37 | both decoders turn the two peaks of key `k`'s pair into `k` |
| CodecProperties.EncodedWindows | dtmf_python_desktop_app.py:57-58 | the framer cuts an encoded signal into one window per known key, window `k` being the `k`-th key's tone |
| CodecProperties.EncodedSegments | app.py:57-60 | the web framer cuts an encoded signal into the same frames |
| CodecProperties.WebAllResolved | app.py:61-62 | frames whose symbols are `keys` give the web output `keys` |
| CodecProperties.EncodedFramePeaks | dtmf_python_desktop_app.py:31-33 | under an ideal peak picker, an encoded frame shows the two frequencies of its key |
| CodecProperties.WindowsDecodeToKeys | app.py:57-64 | under any tolerance up to 36.5 Hz, the web classifier reads an encoded signal's frames back as its known keys |
| CodecProperties.DesktopRoundTrip | dtmf_python_desktop_app.py:48-79 | decoding what `generate_dtmf_sequence` built gives back its known keys |
| CodecProperties.WebRoundTrip | app.py:83-90 | the web decoder gives back the known keys of a signal encoded with any table agreeing with the desktop's |
| CodecProperties.DialerToWebRoundTrip | dtmf_project.py:46-57 | the web decoder, cutting 4000 samples every 4800, reads the dialer's signal back as the dialed digits without A-D |
| CodecProperties.DialerToDesktopRoundTrip | dtmf_python_desktop_app.py:48-79 | the desktop decoder, with its default 4000-sample windows every 4800 samples and its 15 Hz tolerance, reads the dialer's signal back as the dialed digits without A-D |
| CodecProperties.DialOneTwoThree | dtmf_project.py:46-57 | dialing "123" makes 14400 samples, and the web decoder reads "123" |
| CodecProperties.WithoutUnknown | app.py:37 | removing the marks leaves no `'?'` |
| CodecProperties.KnownKeysHaveNoMark | app.py:37 | no known key is the `'?'` mark |
| CodecProperties.WithoutUnknownOfKeys | app.py:37 | a string without `'?'` is unchanged by removing the marks |
| CodecProperties.SymbolsAgree | dtmf_python_desktop_app.py:74-77 | under one tolerance `tol` with 0 < `tol` <= 36.5 Hz, a frame the desktop drops is exactly one the web marks `'?'`; otherwise both give the same symbol |
| CodecProperties.DesktopIsWebWithoutMarks | dtmf_python_desktop_app.py:74-77 | over the same frames, with one tolerance of at most 36.5 Hz and one peak picker for both decoders, the desktop output is the web output with its `'?'` marks removed |
| CodecProperties.PipelinesAgree | app.py:57-62 | on one signal with a non-empty tone, and with one step, one tolerance of at most 36.5 Hz and one peak picker for both decoders, the desktop decoder's output is the web decoder's without its `'?'` marks |
| CodecProperties.DesktopToleranceAccepts | dtmf_python_desktop_app.py:67 | a row peak 12 Hz off still resolves on the desktop (15 Hz) |
| CodecProperties.WebToleranceRejects | app.py:32 | the same peaks give `'?'` on the web (10 Hz) |
| CodecProperties.DesktopReadsFour | dtmf_python_desktop_app.py:64-77 | peaks at 697, 782 and 1209 Hz read as '4' on the desktop, because 782 Hz is within 15 Hz of row 770 and is the last row match |
| CodecProperties.WebReadsOne | app.py:29-37 | the same peaks read as '1' on the web, because at 10 Hz only 697 Hz matches a row |

## Left out

- The spectrum (`np.fft.rfft`, `rfftfreq`, `scipy.fft.fft`, `fftfreq`), `find_peaks` with its height threshold, and the `argsort` choice of the ten strongest bins. These are floating-point library numerics. The decoders take their output as a given list of peak frequencies, through the parameter `peaksOf`.
- DesktopIsWebWithoutMarks: stated for one tolerance and one peak picker shared by both decoders. The programs use 15 Hz with the ten strongest bins and 10 Hz with `find_peaks`, and then they can disagree (`DesktopReadsFour`, `WebReadsOne`).
- PipelinesAgree: stated for one step, one tolerance and one peak picker shared by both decoders, for the same reason.
- The round trips hold for a peak picker that reports exactly the two frequencies of a tone block (`IdealPeaks`). Real spectra are quantised into bins and have leakage; that is not modelled.
- Sine synthesis, normalisation to 32767, the 16-bit cast, and the dialer's scaling after concatenation. They are represented by the parameter `wave`, so only lengths, order, filtering and the zero pauses are proved about samples.
- DesktopApp.GenerateTone: states the existence and the length of the tone, not the sine values, for the same reason.
- The float truncations `int(fs * duration)` and `int(Fs * (tone + pause))`. Sample counts and the step are `nat` parameters. The dialer's values 4000 and 800 are constants.
- DesktopApp.DecodeDtmfFromSignal: requires tone + pause > 0. When both are 0, the first chunk is empty and the source raises `ValueError` in `np.fft.rfft` (dtmf_python_desktop_app.py:59); the model does not represent that error.
- DesktopApp.DecodeDtmfFromSignal: with an empty tone and a positive pause, the source also raises at `np.fft.rfft` of the empty chunk (dtmf_python_desktop_app.py:59). The model's `peaksOf` is total, so it decodes symbols there instead.
- DesktopApp.GenerateDtmfSequence: with an empty tone, `np.max` of the empty tone raises in `generate_tone` (dtmf_python_desktop_app.py:22) for any known key. The model's `wave` is total, so it returns a signal of pauses only.
- FlaskApp.DecodeSegments: with an empty tone, `detect_dtmf_tone` raises at `np.fft.fftfreq(0, 1/Fs)`, which divides by zero before `fft` is reached (app.py:23). The model appends symbols there instead. For the same reason, the empty-tone case of Framing.SegmentCount describes a framing that neither program gets through.
- FlaskApp.DecodeSegments: requires step > 0. `range` with a zero step raises `ValueError` in the source.
- WAV reading and writing, `sounddevice` playback, temporary files, the Flask request handling and its "No file provided" responses, and the dialer's `requests.post` upload are I/O.
- The PyQt6 window (`DTMFApp`) and the Kivy widgets and handlers (`build`, `add_digit`, `make_call`) are UI.
