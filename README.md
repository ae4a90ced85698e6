# TunerTUI core in Dafny

This project models the core of TunerTUI, a terminal instrument tuner. The tuner reads blocks of
microphone samples. It finds the pitch with the YIN algorithm (de Cheveigné and Kawahara, 2002)
and names the nearest equal-tempered note, with A4 = 440 Hz as in ISO 16. It then shows how many
cents sharp or flat the note is, both on a gauge and against the strings of the chosen instrument.

The model is split into five modules, one per source concern:

- `Common` (`common.dfy`): the option and result types. It also holds the exceptions the tuner
  raises (`RuntimeError`, `ValueError`, `IndexError`) and Python's truncating `int()`.
- `Yin` (`yin.dfy`) covers `FrequencyDetector._yin_diff` and `_find_tau`.
  - `YinDiff` is the imperative method, over a Dafny `array`.
  - It keeps the source's two nested accumulation loops and its in-place normalisation loop.
  - It is proved equal to a specification built from the difference function d(τ) and its
    running sums.
  - `FindTau` scans the array with the source's two passes and is proved equal to `FindTauSpec`.
- `Audio` (`audio.dfy`) covers `AudioConfig`, `FrequencyResult` and `detect`.
  - `detect` is a pure function over the specification of the array.
  - `AudioCapture` and `TunerEngine` are classes whose methods update `stream` and `is_running`.
- `Notes` (`notes.dfy`) covers note naming and `note_to_frequency`.
  - `get_notes_in_range` and `_parse_tuning` are loops proved against specification functions.
  - It also covers instruments and the case-insensitive preset lookup.
- `Ui` (`ui.dfy`) holds the decision rules of the screen.
  - The rules are the gauge position and gauge line, the status text, the per-string arrow and
    the in-tune flag.
  - `StringList` is a class over a `map<int, StringState>`.
  - It also holds the closest-string scan of the update loop.
  - `TunerApp` holds the start and stop guards and one update step.

Samples, frequencies and cents are `real`s. A few things are parameters of the model:

- `math.log2` is the parameter `log2`, and `SEMITONE_RATIO ** k` is `ratioPow(k)`.
- `Tempered(log2, ratioPow)` states that there are twelve equal steps per octave.
- `Increasing(ratioPow)` states that the frequency rises with the semitone.
- The Hann window `np.hanning(n)` is a given coefficient sequence `hann`.

Where the code's behaviour differs from its own comments or from the YIN method, the model
follows the code:

- `_find_tau`'s first pass takes the global minimum over lags [1, min(tau_max, len)) and ignores
  `tau_min`. The comment at `tunertui/audio.py:98` gives the search range as 40 Hz to 1000 Hz,
  but the 1000 Hz ceiling is not enforced. `Audio.DetectFacts` shows that a valid
  frequency lies in (40 Hz, 2/3 of the sample rate]. This also departs from the absolute-threshold
  step of the YIN paper, which takes the smallest lag whose dip is below the threshold.
- The confidence is `1 - yin[int(tau)]`, read at the truncated refined lag, and is not clamped.
  `Audio.ConfidenceFromRefinedLag` gives an array where this differs from the entry at the
  chosen minimum.
- The field comment at `tunertui/audio.py:26` calls the confidence "0.0 to 1.0". The code only
  guarantees the upper bound. `Audio.NegativeConfidence` gives an array with every property
  `Yin.YinShape` proves of `_yin_diff`'s output (0 then 1, no negative entry) on which the
  confidence is -0.2.
- Validity only compares the confidence with the threshold. The frequency range is not checked.
- Python's `round` rounds half to even, so cents lie in the closed range [-50, 50], matching the
  docstring at `tunertui/notes.py:42`. Both ends can occur (`Notes.CentsReachBothEnds`).
- An invalid reading has frequency 0 and cents 0. `update_frequency` still credits it to the
  string nearest 0 Hz when that string is below 500 Hz, and marks that string in tune
  (`Ui.SilenceMarksLowestString`).

## Model

| member | source | states |
|---|---|---|
| Common.Trunc | tunertui/audio.py:114 | `int()` on a float truncates toward zero: the result is the floor for a non-negative argument and the ceiling for a negative one |
| Common.TruncDiv | tunertui/audio.py:101-102 | `int(a / b)` for a positive divisor is Dafny's `a / b` for a ≥ 0 and `-((-a) / b)` for a < 0 |
| Common.TruncMonotone | tunertui/ui.py:32 | truncation is monotone |
| Yin.ResolveTauMax | tunertui/audio.py:135-141 | an explicit third argument wins; otherwise the second; 882 when that is None or 0 |
| Yin.YinDiffSpec | tunertui/audio.py:126-160 | `_yin_diff` succeeds iff the resolved length is positive; a negative length is ValueError (`np.zeros`), length 0 the IndexError of reading `cumsum[0]`; on success the array has the resolved length |
| Yin.YinSpec | tunertui/audio.py:143 | the normalised array has exactly the resolved length |
| Yin.CumSum | tunertui/audio.py:151 | `np.cumsum` keeps the length, starts with the first entry and adds one entry per step |
| Yin.YinDiff | tunertui/audio.py:126-160 | the returned array is the normalised difference function at the resolved length; a negative length raises ValueError, length 0 raises IndexError |
| Yin.AccumulateLag | tunertui/audio.py:146-148 | the inner loop leaves d(τ) in entry τ and touches no other entry |
| Yin.NormalizeInPlace | tunertui/audio.py:150-158 | overwriting in place, reading running sums taken beforehand, yields τ·d(τ)/Σd when the sum is positive and 1.0 otherwise, with entry 0 left at 0 |
| Yin.CumSumOfRaw | tunertui/audio.py:151-152 | the running sums of the raw array are the cumulative differences Σ_{k≤τ} d(k) |
| Yin.LagSumNonNegative | tunertui/audio.py:147-148 | every partial sum of squared differences is ≥ 0 |
| Yin.RawDiffNonNegative | tunertui/audio.py:146-148 | d(τ) ≥ 0 |
| Yin.CumDiffDominates | tunertui/audio.py:151-156 | the cumulative sum is ≥ 0 and at least its last term |
| Yin.NormalizedBounds | tunertui/audio.py:154-158 | every normalised entry lies in [0, max(τ, 1)] |
| Yin.NormalizedAtOne | tunertui/audio.py:154-158 | entry 1 is exactly 1.0 for every block |
| Yin.YinShape | tunertui/audio.py:143-158 | entry 0 stays 0, entry 1 is 1.0, every entry is non-negative |
| Yin.SilentYin | tunertui/audio.py:146-158 | for an all-zero block every entry from 1 on is 1.0 |
| Yin.ArgMin | tunertui/audio.py:192 | `np.argmin(yin[1:range]) + 1` is the first index of the minimum over [1, range) |
| Yin.PyIndex | tunertui/audio.py:209-210 | Python indexing: defined exactly on [-len, len), from the end for negative indices |
| Yin.Refine | tunertui/audio.py:197-206 | outside the interior of the array the lag stays k; inside, the refined lag is the vertex of the parabola through the three neighbouring entries (k for a flat or symmetric triple) |
| Yin.SecondPass | tunertui/audio.py:208-223 | the fallback scan returns the refinement of the first lag from tau_min whose entry (with Python indexing) is below the threshold; None only when every entry in range is at or above it; IndexError exactly when an index before any crossing is out of bounds |
| Yin.FindTauSpec | tunertui/audio.py:162-223 | the accepted lag always refines an index whose entry is below the threshold; the only error is IndexError; None only when no entry in [1, range) is below the threshold |
| Yin.ScanFrom | tunertui/audio.py:208-223 | the loop with early returns is SecondPass |
| Yin.SearchBounds | tunertui/audio.py:175-187 | both bounds given are used; otherwise the search covers [1, len) |
| Yin.FindTau | tunertui/audio.py:162-223 | the two-pass search with early returns is FindTauSpec: an accepted global minimum below the threshold, else the first crossing from tau_min, else None; an out-of-range index raises |
| Yin.RefineWithinHalf | tunertui/audio.py:197-206 | when both neighbours are ≥ the centre, the parabolic refinement moves at most half a sample |
| Yin.SecondPassAfterFailedMin | tunertui/audio.py:208-223 | from tau_min ≥ 1 the fallback scan finds nothing once no entry in [1, range) is below the threshold |
| Yin.FindTauFromPositiveMin | tunertui/audio.py:189-223 | with tau_min ≥ 1 the search never raises, returns None iff no entry in [1, range) is below the threshold, and otherwise returns the refined first minimum |
| Audio.Window | tunertui/audio.py:94 | the windowed block is the elementwise product of samples and window |
| Audio.FrequencyDetector.TauMin | tunertui/audio.py:101 | for a sample rate ≥ 0, the largest lag t ≥ 0 with 1000·t ≤ sample rate; truncation toward zero for a negative rate |
| Audio.FrequencyDetector.TauMax | tunertui/audio.py:102 | for a sample rate ≥ 0, the largest lag t ≥ 0 with 40·t ≤ sample rate; truncation toward zero for a negative rate |
| Audio.FrequencyDetector.Detect | tunertui/audio.py:80-124 | an invalid result carries frequency 0; a valid one has confidence at least the threshold |
| Audio.FrequencyDetector.FromLag | tunertui/audio.py:110-124 | a search error passes through; no lag or lag 0 gives (0.0, 0.0, invalid); an invalid result carries frequency 0; a valid one has confidence at least the threshold |
| Audio.ShapedSearch | tunertui/audio.py:189-221 | on an array shaped like `_yin_diff`'s, the search yields None, lag 0, or a lag in [1.5, n-1] whose integer part indexes the array |
| Audio.DetectArray | tunertui/audio.py:101-105 | for a sample rate ≥ 0, tau_min and tau_max are ≥ 0, `_yin_diff` succeeds with length tau_max (882 when that is 0), and 40·tau_max ≤ sample rate |
| Audio.DetectFacts | tunertui/audio.py:98-124 | for a sample rate ≥ 0 detect never raises, confidence ≤ 1, and a valid frequency lies in (40, 2/3 of the sample rate] |
| Audio.FromShapedLag | tunertui/audio.py:110-124 | on a lag ShapedSearch allows, the tail never raises and respects the same bounds |
| Audio.LagFrequencyBounds | tunertui/audio.py:113 | a lag in [1.5, n-1] with 40·n ≤ sample rate gives a frequency in (40, 2/3 of the sample rate] |
| Audio.DetectSilence | tunertui/audio.py:105-111 | an all-zero block yields (0.0, 0.0, invalid) |
| Audio.SilentSearch | tunertui/audio.py:189-223 | on the silent array the search yields None or lag 0 |
| Audio.DetectValidity | tunertui/audio.py:113-124 | for a found non-zero lag: confidence = 1 − yin[int(tau)], valid iff confidence ≥ threshold, and a valid frequency is sample rate / tau |
| Audio.DetectNoLag | tunertui/audio.py:105-111 | when the lag search finds no lag or lag 0, detect returns (0.0, 0.0, invalid) |
| Audio.ConfidenceFromRefinedLag | tunertui/audio.py:195-206 | the confidence is read at the truncated refined lag: a passing minimum can be judged invalid from its neighbour |
| Audio.NegativeConfidence | tunertui/audio.py:26 | on an array shaped like `_yin_diff`'s, the result's confidence 1 − 1.2 is below 0, outside the commented range |
| Audio.AudioCapture.constructor | tunertui/audio.py:33-35 | the configuration defaults when none is given; no stream |
| Audio.AudioCapture.Start | tunertui/audio.py:38-49 | no-op when a stream exists, otherwise opens one |
| Audio.AudioCapture.Stop | tunertui/audio.py:51-56 | afterwards there is no stream |
| Audio.AudioCapture.Read | tunertui/audio.py:58-63 | succeeds iff a stream exists, returning the block; otherwise RuntimeError "Stream not started" |
| Audio.TunerEngine.constructor | tunertui/audio.py:229-233 | the configuration and capture for the sample rate, a detector with threshold 0.1, not running |
| Audio.TunerEngine.Start | tunertui/audio.py:235-238 | running, with the stream kept or opened |
| Audio.TunerEngine.Stop | tunertui/audio.py:240-243 | not running, and no stream |
| Audio.TunerEngine.GetFrequency | tunertui/audio.py:245-250 | RuntimeError "Tuner not running" unless running; otherwise detect on the block read |
| Notes.NameIndex | tunertui/notes.py:33-34 | NOTE_INDICES maps NOTES[i] to i |
| Notes.NoteIndicesInvert | tunertui/notes.py:33-34 | twelve distinct names; NOTE_INDICES[NOTES[i]] = i and NOTES[NOTE_INDICES[x]] = x |
| Notes.IndexNames | tunertui/notes.py:33-34 | every key of NOTE_INDICES names its own position |
| Notes.RoundHalfEven | tunertui/notes.py:51 | `round` gives the nearest integer, ties going to the even one |
| Notes.NoteIndexOf | tunertui/notes.py:58 | the pitch class lies in [0, 11] |
| Notes.OctaveOf | tunertui/notes.py:59 | the octave is the one whose twelve semitones contain 9 + n (floor semantics for negative n) |
| Notes.SemitonesFromA4 | tunertui/notes.py:73 | for a pitch class in 0..11, the offset lies in the octave's block [12·(octave−4) − 9, 12·(octave−4) + 2] and is 0 exactly for A4 |
| Notes.SemitoneRoundTrip | tunertui/notes.py:57-73 | (octave − 4)·12 + (index − 9) gives back the semitone offset |
| Notes.NoteRoundTrip | tunertui/notes.py:57-73 | for index in 0..11, index and octave are recovered from the offset |
| Audio.DefaultConfig | tunertui/audio.py:15-18 | `AudioConfig()`: 44100 Hz, blocks of 4096, one channel, "float32" |
| Notes.NatToString | tunertui/notes.py:63 | a one-digit octave prints as its digit |
| Notes.NatToStringDigits | tunertui/notes.py:63 | `str` of a natural number consists of decimal digits only |
| Notes.IntToString | tunertui/notes.py:63 | `str` of an integer is non-empty, starts with "-" exactly for a negative number, and is one digit for 0..9 |
| Notes.IntToStringDigits | tunertui/notes.py:63 | `str` of an integer is an optional minus sign followed by digits |
| Notes.NoteLabelShape | tunertui/notes.py:58-63 | `Notes.NoteLabel`, the label `f"{note_name}{octave}"`, starts with the pitch-class name and ends with a digit; a one-digit octave makes it exactly name + digit |
| Notes.NoteForSemitone | tunertui/notes.py:48-63 | the label is that of the nearest semitone; cents lie in [−50, 50], and are 0 iff the offset is a whole semitone |
| Notes.FrequencyToNote | tunertui/notes.py:37-63 | ("---", 0.0) for a frequency ≤ 0; cents always in [−50, 50] |
| Notes.ConcertPitch | tunertui/notes.py:44-63 | 440 Hz is "A4", 0 cents |
| Notes.CentsReachBothEnds | tunertui/notes.py:41-54 | both +50 and −50 cents occur |
| Notes.NoteToFrequency | tunertui/notes.py:65-75 | succeeds iff the name is known; otherwise ValueError "Unknown note: …" |
| Notes.NameFrequency | tunertui/notes.py:68-75 | the frequency of NOTES[i] in an octave is 440·ratio^((octave−4)·12 + (i−9)) |
| Notes.FrequencyToNoteInverts | tunertui/notes.py:37-75 | with equal temperament, naming the frequency of a known note gives that note at 0 cents |
| Notes.TemperedOffset | tunertui/notes.py:44-51 | when 12·log2(p) = k, naming 440·p Hz rounds the whole offset k |
| Notes.WholeSemitone | tunertui/notes.py:50-63 | a whole semitone offset is named by its own label at 0 cents |
| Notes.LabelOfNote | tunertui/notes.py:57-63 | the label of a note's offset is its name followed by its octave |
| Notes.TemperedSemitone | tunertui/notes.py:44-63 | the tempered frequency k semitones from A4 is named by k, in tune |
| Notes.AllNotes | tunertui/notes.py:82-84 | the loops visit 108 candidates |
| Notes.AllNotesAt | tunertui/notes.py:82-86 | candidate k is pitch class k mod 12 of octave k div 12 at its `note_to_frequency` frequency |
| Notes.InRange | tunertui/notes.py:85-86 | the kept notes are exactly the candidates within [min, max] |
| Notes.InRangeSubMultiset | tunertui/notes.py:85-86 | filtering keeps each candidate at most as often as it occurs |
| Notes.AllNotesDistinct | tunertui/notes.py:82-84 | no (name, octave) candidate is visited twice |
| Notes.Insert | tunertui/notes.py:88 | the result holds exactly the old elements plus the inserted one (as multisets) |
| Notes.InsertSorted | tunertui/notes.py:88 | insertion keeps a sorted list sorted |
| Notes.SortByFrequency | tunertui/notes.py:88 | the result is a permutation and sorted by frequency |
| Notes.NotesInRange | tunertui/notes.py:77-88 | the result is sorted by frequency |
| Notes.CollectStep | tunertui/notes.py:82-86 | one step of the loops appends candidate (i, octave) exactly when its frequency is in range |
| Notes.GetNotesInRange | tunertui/notes.py:77-88 | the nested loops return the sorted filtered candidates |
| Notes.NotesInRangeFacts | tunertui/notes.py:78-88 | every result is in range, in octaves 0..8 and at its own frequency; every such note is returned; each candidate at most once (a sub-multiset of the distinct candidates); sorted |
| Notes.RangeMember | tunertui/notes.py:78-88 | a returned note is in range, in octaves 0..8 and carries its own frequency |
| Notes.NotesInRangeNeedNoSort | tunertui/notes.py:82-88 | when frequency rises with the semitone, the loops already produce sorted order |
| Notes.InRangeKeepsSorted | tunertui/notes.py:85-86 | filtering keeps sortedness |
| Notes.SortKeepsSorted | tunertui/notes.py:88 | the sort leaves a sorted list unchanged |
| Notes.DigitValue | tunertui/notes.py:110 | `int` on one character succeeds exactly on a digit, whose value it gives |
| Notes.ParseNote | tunertui/notes.py:108-112 | IndexError on ""; on success the name is all but the last character, the octave the last digit, the frequency `note_to_frequency`'s |
| Notes.ParseNoteOfLabel | tunertui/notes.py:108-112 | a note label with octave 0..9 parses back to that note |
| Notes.ParseAll | tunertui/notes.py:104-113 | one note per tuning string on success; a failure is the failure of some string |
| Notes.ParseAllPrefixFailure | tunertui/notes.py:107-112 | the first failing string's error is the loop's error |
| Notes.ParseAllShape | tunertui/notes.py:104-113 | parsing fails iff some string fails; else one note per string, in order |
| Notes.ParseTuning | tunertui/notes.py:104-113 | the loop returns ParseAll of the tuning |
| Notes.Instrument.GetStringNotes | tunertui/notes.py:115-117 | `get_string_notes` returns the notes the instrument was built with, a plain field access |
| Notes.NewInstrument | tunertui/notes.py:94-102 | construction raises what parsing raises; otherwise one string per tuning entry |
| Notes.Lower | tunertui/notes.py:184 | lower-casing is character by character |
| Notes.LowerIdempotent | tunertui/notes.py:184 | lower-casing twice is lower-casing once |
| Notes.IndexByName | tunertui/notes.py:180-186 | the first index whose name matches ignoring case, or none when no name does |
| Notes.GetByName | tunertui/notes.py:180-186 | returns that instrument; otherwise ValueError "Unknown instrument: …" |
| Notes.FirstMatch | tunertui/notes.py:183-185 | the loop's early return is IndexByName's index |
| Notes.GetNames | tunertui/notes.py:188-191 | same length and order as the table |
| Notes.ListedNamesResolve | tunertui/notes.py:180-191 | every listed name resolves, to an entry no later than itself; the lookup ignores case |
| Ui.GaugePosition | tunertui/ui.py:29-32 | the column lies in [0, 39]; it is ⌊(cents+50)·0.4⌋ on [−50, 50); it is 0 at cents ≤ −50 and 39 at cents ≥ 47.5 |
| Ui.GaugeMonotone | tunertui/ui.py:32 | a higher reading never moves the marker left |
| Ui.GaugeCentred | tunertui/ui.py:32 | 0 cents puts the marker at column 20 |
| Ui.Repeat | tunertui/ui.py:33 | `c * n` is n copies of c |
| Ui.Gauge | tunertui/ui.py:29-43 | 40 characters; when valid the marker is exactly at the position and rules elsewhere; all rule when invalid |
| Ui.GaugeMarkerCount | tunertui/ui.py:30-43 | exactly one marker when valid, none otherwise |
| Ui.TuningStatus | tunertui/ui.py:35-44 | NO SIGNAL iff invalid; SHARP iff valid and > 2; FLAT iff valid and < −2; IN TUNE iff valid and within ±2 |
| Ui.StatusMirror | tunertui/ui.py:36-41 | sharp at c iff flat at −c; in tune is symmetric |
| Ui.Arrow | tunertui/ui.py:79-87 | "?" iff nothing detected; ↑ above +2, ↓ below −2, blank between |
| Ui.ArrowAgreesWithStatus | tunertui/ui.py:78-87 | the arrow agrees with the main status; blank implies in tune; at 2–3 cents a string is in tune with its arrow up |
| Ui.NewStringState | tunertui/ui.py:68-75 | a new string widget keeps its number, note name and target frequency, has detected nothing (0 Hz, 0 cents), is not in tune, and so shows the "?" arrow |
| Ui.StringsOf | tunertui/ui.py:119-124 | keys exactly 1..n, string i built from the i-th note |
| Ui.InTune | tunertui/ui.py:143 | in tune exactly when −3 < cents < 3 |
| Ui.UpdateEntry | tunertui/ui.py:137-143 | unknown number: unchanged; known: new frequency and cents, in tune iff abs(cents) < 3; same keys, targets and other entries |
| Ui.UpdateEntryLaws | tunertui/ui.py:137-143 | an update is idempotent; updates of different strings commute |
| Ui.StringList.constructor | tunertui/ui.py:115-117 | no strings |
| Ui.StringList.AddStrings | tunertui/ui.py:119-124 | the map becomes StringsOf the instrument's notes, whatever it held |
| Ui.StringList.UpdateString | tunertui/ui.py:137-143 | the map becomes UpdateEntry of the old map |
| Ui.FirstClosest | tunertui/ui.py:262-269 | the index attains the minimum distance and every earlier index is strictly farther |
| Ui.ClosestString | tunertui/ui.py:262-269 | the scan returns FirstClosest and its distance |
| Ui.CreditedString | tunertui/ui.py:261-274 | none iff there are no strings or the closest is ≥ 500 Hz away; otherwise the 1-based number of the first closest |
| Ui.SilenceMarksLowestString | tunertui/ui.py:259-278 | a 0 Hz reading is credited when some target is below 500 Hz, and flags that string in tune |
| Ui.CreditReading | tunertui/ui.py:259-278 | the string list becomes UpdateEntry at the credited string, or stays unchanged |
| Ui.Shown | tunertui/ui.py:247-254 | the display copies validity, frequency and confidence; for a positive frequency it shows `frequency_to_note`'s note and cents, and "---" with 0 cents otherwise; NO SIGNAL when invalid; cents in [−50, 50] |
| Ui.StringsAfter | tunertui/ui.py:259-278 | the same strings; no instrument changes nothing; every string other than the credited one stays as it was |
| Ui.InitialDisplay | tunertui/ui.py:20-24 | the display's reactive defaults: 0 Hz, "---", 0 cents, confidence 0, invalid |
| Ui.TunerApp.constructor | tunertui/ui.py:149-155 | no engine, instrument, display or list; not running |
| Ui.TunerApp.Compose | tunertui/ui.py:157-176 | an initial display and an empty string list |
| Ui.TunerApp.OnMount | tunertui/ui.py:178-188 | a fresh idle engine with the default configuration (44100 Hz), a fresh capture with no stream open and threshold 0.1, the default instrument, and its strings in the list |
| Ui.TunerApp.SelectInstrument | tunertui/ui.py:190-201 | empty: nothing; unknown: ValueError reported, nothing changes; known: current instrument and list refilled |
| Ui.TunerApp.StartTuning | tunertui/ui.py:212-223 | instrument, display and list never change; without an engine or when already running nothing changes, the engine keeping its running flag and stream; otherwise app and engine both run, the stream kept or opened as `TunerEngine.start` does |
| Ui.TunerApp.StopTuning | tunertui/ui.py:229-239 | instrument, display and list never change; when not running the engine keeps its flag and stream; otherwise app and engine stop and the stream is closed |
| Ui.TunerApp.UpdateFrequencyOnce | tunertui/ui.py:241-284 | one loop pass: an error stops the loop; otherwise the display shows the result and the closest string is credited as CreditReading says |

## Left out

- Floating point: every quantity is a `real`, so IEEE rounding, NaN, infinities and overflow are
  not modelled. `float32` input samples are treated as exact.
- `np.hanning`, `math.log2` and `SEMITONE_RATIO ** k` are transcendental. They are parameters
  of the model (`hann`, `log2`, `ratioPow`).
- Notes.FrequencyToNoteInverts: proved under the assumption that `log2` and `ratioPow` are exact
  inverses. Floating-point error in the round trip is not modelled.
- The sound device is left out:
  - Stream creation, `start`, `stop`, `close` and `read` become an abstract `InputStream`
    handle.
  - The block read is an input sequence.
  - Device errors cannot occur in the model.
  - `AudioCapture.__enter__`/`__exit__` are not modelled beyond `Start` and `Stop`.
- An index out of range raises IndexError with the fixed text "index out of bounds", not
  numpy's "index K is out of bounds for axis 0 with size N". The other error messages are the
  source's and numpy's own.
- `AudioCapture.buffer` is allocated and never used, so it is not modelled.
- The instrument preset table (`GUITAR_STANDARD` … `VIOLIN`) is static data. The lookup
  functions take the table as a parameter, and `on_mount` takes the default instrument as one.
- Audio.DetectFacts: bounds the confidence only from above (≤ 1). The code does not keep it
  at or above 0, although `tunertui/audio.py:26` calls it "0.0 to 1.0" (`Audio.NegativeConfidence`).
- Notes.SortByFrequency: states a sorted permutation, not that ties keep their order as Python's
  stable `sorted` does. With a `ratioPow` that rises with the semitone there are no ties, and the
  sort returns the loops' order (`Notes.NotesInRangeNeedNoSort`, `Notes.SortKeepsSorted`).
- Notes.DigitValue: only ASCII digits are digits; Python's `int` also accepts other Unicode
  decimal digits.
- Notes.Lower: only ASCII letters are lower-cased; Python's `str.lower` maps all of Unicode.
- Everything visual in the UI is left out:
  - Textual composition, layout, CSS, the header and footer, and reactive refresh.
  - `notify`, and the button dispatch of `on_button_pressed` other than start and stop.
  - The box-drawing text of `TunerDisplay.render`.
  - The formatted lines of `StringTuner.render` and `StringList.render`.
  - The model keeps the values those texts are computed from: gauge, status, arrow and in-tune
    flag.
- The `update_frequency` loop is not modelled as a loop. Its `asyncio.sleep` cadence and task
  scheduling are left out; `UpdateFrequencyOnce` models one pass of its body.
- Ui.TunerApp.OnMount: requires that the tuner is not running, since mounting happens before any
  start. Without that requirement, replacing the engine would break the running-engine
  invariant.
- `Note.__str__`/`__repr__`, and `tunertui/cli.py` (application bootstrap and exit codes), are
  not modelled.
