/** The decision rules of the terminal tuner screen: where the gauge marker
    sits, the sharp/flat/in-tune classification, the per-string arrow and
    in-tune flag, which string a detected pitch is credited to, and the
    start/stop guards of the application. */
module Ui {
  import opened Common
  import opened Notes
  import Audio

  function Abs(x: real): real { if x < 0.0 then -x else x }

  // ---------------------------------------------------------------------
  // Main display

  const GaugeWidth := 40
  const GaugeRule := '─'
  const GaugeMarker := '◆'

  /** Column of the marker: cents -50..+50 spread over the gauge, clamped to
      its first and last column. */
  function GaugePosition(cents: real): (p: int)
    ensures 0 <= p < GaugeWidth
    ensures -50.0 <= cents < 50.0 ==> p == ((cents + 50.0) * 0.4).Floor
    ensures cents <= -50.0 ==> p == 0
    ensures cents >= 47.5 ==> p == GaugeWidth - 1
  {
    Max(0, Min(GaugeWidth - 1, Trunc((cents + 50.0) / 100.0 * GaugeWidth as real)))
  }

  /** A higher reading never moves the marker left. */
  lemma GaugeMonotone(c1: real, c2: real)
    requires c1 <= c2
    ensures GaugePosition(c1) <= GaugePosition(c2)
  {
    TruncMonotone((c1 + 50.0) / 100.0 * GaugeWidth as real, (c2 + 50.0) / 100.0 * GaugeWidth as real);
  }

  /** In tune, the marker is in the middle of the gauge. */
  lemma GaugeCentred()
    ensures GaugePosition(0.0) == GaugeWidth / 2
  {
    assert ((0.0 + 50.0) * 0.4) == 20.0;
  }

  function Repeat(c: char, n: nat): (s: string)
    ensures |s| == n
    ensures forall i :: 0 <= i < n ==> s[i] == c
  {
    if n == 0 then [] else Repeat(c, n - 1) + [c]
  }

  /** The gauge line: 40 rule characters, one of them replaced by the marker
      at GaugePosition when the reading is valid. */
  function Gauge(isValid: bool, cents: real): (g: string)
    ensures |g| == GaugeWidth
    ensures isValid ==> forall i :: 0 <= i < |g| ==> (g[i] == GaugeMarker <==> i == GaugePosition(cents))
    ensures isValid ==> forall i :: 0 <= i < |g| && i != GaugePosition(cents) ==> g[i] == GaugeRule
    ensures !isValid ==> forall i :: 0 <= i < |g| ==> g[i] == GaugeRule
  {
    if isValid then
      var p := GaugePosition(cents);
      Repeat(GaugeRule, p) + [GaugeMarker] + Repeat(GaugeRule, GaugeWidth - p - 1)
    else Repeat(GaugeRule, GaugeWidth)
  }

  /** Number of occurrences of c in s. */
  function Occurrences(s: string, c: char): nat
  {
    if s == [] then 0 else Occurrences(s[..|s| - 1], c) + (if s[|s| - 1] == c then 1 else 0)
  }

  /** Exactly one marker on a valid reading, none otherwise. */
  lemma GaugeMarkerCount(isValid: bool, cents: real)
    ensures Occurrences(Gauge(isValid, cents), GaugeMarker) == if isValid then 1 else 0
  {
    var g := Gauge(isValid, cents);
    if isValid {
      OccurrencesAt(g, GaugeMarker, GaugePosition(cents));
    } else {
      OccurrencesNone(g, GaugeMarker);
    }
  }

  lemma {:induction false} OccurrencesNone(s: string, c: char)
    requires forall i :: 0 <= i < |s| ==> s[i] != c
    ensures Occurrences(s, c) == 0
  {
    if s != [] {
      OccurrencesNone(s[..|s| - 1], c);
    }
  }

  lemma {:induction false} OccurrencesAt(s: string, c: char, k: int)
    requires 0 <= k < |s|
    requires forall i :: 0 <= i < |s| ==> (s[i] == c <==> i == k)
    ensures Occurrences(s, c) == 1
  {
    var prefix := s[..|s| - 1];
    if k == |s| - 1 {
      OccurrencesNone(prefix, c);
    } else {
      OccurrencesAt(prefix, c, k);
    }
  }

  const SharpStatus := "♯ SHARP"
  const FlatStatus := "♭ FLAT"
  const InTuneStatus := "✓ IN TUNE"
  const NoSignalStatus := "NO SIGNAL"

  /** Status line of the main display: no signal for an invalid reading,
      otherwise sharp above +2 cents, flat below -2, in tune in between. */
  function TuningStatus(isValid: bool, cents: real): (s: string)
    ensures s == NoSignalStatus <==> !isValid
    ensures s == SharpStatus <==> isValid && cents > 2.0
    ensures s == FlatStatus <==> isValid && cents < -2.0
    ensures s == InTuneStatus <==> isValid && -2.0 <= cents <= 2.0
  {
    if !isValid then NoSignalStatus
    else if cents > 2.0 then SharpStatus
    else if cents < -2.0 then FlatStatus
    else InTuneStatus
  }

  /** Sharp and flat are mirror images. */
  lemma StatusMirror(isValid: bool, cents: real)
    ensures TuningStatus(isValid, cents) == SharpStatus <==> TuningStatus(isValid, -cents) == FlatStatus
    ensures TuningStatus(isValid, cents) == InTuneStatus <==> TuningStatus(isValid, -cents) == InTuneStatus
  {
  }

  // ---------------------------------------------------------------------
  // One string of the instrument

  /** The tolerance behind a string's in-tune flag. */
  predicate InTune(cents: real)
    ensures InTune(cents) <==> -3.0 < cents < 3.0
  {
    Abs(cents) < 3.0
  }

  /** Arrow next to a string: unknown before any pitch was credited to it,
      otherwise up when sharp, down when flat, blank in between. */
  function Arrow(detectedFreq: real, cents: real): (a: string)
    ensures a == "?" <==> detectedFreq <= 0.0
    ensures a == "↑" <==> detectedFreq > 0.0 && cents > 2.0
    ensures a == "↓" <==> detectedFreq > 0.0 && cents < -2.0
    ensures a == " " <==> detectedFreq > 0.0 && -2.0 <= cents <= 2.0
  {
    if detectedFreq > 0.0 then
      if cents > 2.0 then "↑" else if cents < -2.0 then "↓" else " "
    else "?"
  }

  /** On a detected pitch, the arrow agrees with the main status; a blank
      arrow always comes with the in-tune flag, but between 2 and 3 cents a
      string is flagged in tune while its arrow still points. */
  lemma ArrowAgreesWithStatus(detectedFreq: real, cents: real)
    requires detectedFreq > 0.0
    ensures Arrow(detectedFreq, cents) == "↑" <==> TuningStatus(true, cents) == SharpStatus
    ensures Arrow(detectedFreq, cents) == "↓" <==> TuningStatus(true, cents) == FlatStatus
    ensures Arrow(detectedFreq, cents) == " " ==> InTune(cents)
    ensures 2.0 < cents < 3.0 ==> Arrow(detectedFreq, cents) == "↑" && InTune(cents)
  {
  }

  /** A `StringTuner` widget's fields. */
  datatype StringState = StringState(
    stringNumber: int,
    noteName: string,
    targetFreq: real,
    detectedFreq: real,
    centsOff: real,
    isInTune: bool)

  /** A freshly built widget: nothing detected, not in tune. */
  function NewStringState(number: int, note: Note): (w: StringState)
    ensures w.stringNumber == number && w.noteName == note.name && w.targetFreq == note.frequency
    ensures w.detectedFreq == 0.0 && w.centsOff == 0.0 && !w.isInTune
    ensures Arrow(w.detectedFreq, w.centsOff) == "?"
  {
    StringState(number, note.name, note.frequency, 0.0, 0.0, false)
  }

  /** The widgets `add_strings` creates: string i (from 1) for the i-th note. */
  function StringsOf(notes: seq<Note>): (m: map<int, StringState>)
    ensures forall i :: i in m <==> 1 <= i <= |notes|
    ensures forall i :: 1 <= i <= |notes| ==> m[i] == NewStringState(i, notes[i - 1])
  {
    if notes == [] then map[]
    else StringsOf(notes[..|notes| - 1])[|notes| := NewStringState(|notes|, notes[|notes| - 1])]
  }

  /** Crediting a reading to string `number`: an unknown number changes
      nothing; a known one takes the frequency and cents and is in tune iff
      within 3 cents; every other string and every target stays as it was. */
  function UpdateEntry(m: map<int, StringState>, number: int, detectedFreq: real, cents: real)
    : (r: map<int, StringState>)
    ensures r.Keys == m.Keys
    ensures number !in m ==> r == m
    ensures number in m ==>
      && r[number].detectedFreq == detectedFreq
      && r[number].centsOff == cents
      && (r[number].isInTune <==> InTune(cents))
    ensures forall k :: k in m ==>
      && r[k].stringNumber == m[k].stringNumber
      && r[k].noteName == m[k].noteName
      && r[k].targetFreq == m[k].targetFreq
    ensures forall k :: k in m && k != number ==> r[k] == m[k]
  {
    if number in m then
      m[number := m[number].(detectedFreq := detectedFreq, centsOff := cents, isInTune := InTune(cents))]
    else m
  }

  /** Repeating an update changes nothing more; updates of different
      strings commute. */
  lemma UpdateEntryLaws(m: map<int, StringState>, a: int, b: int, fa: real, ca: real, fb: real, cb: real)
    ensures UpdateEntry(UpdateEntry(m, a, fa, ca), a, fa, ca) == UpdateEntry(m, a, fa, ca)
    ensures a != b ==>
      UpdateEntry(UpdateEntry(m, a, fa, ca), b, fb, cb) == UpdateEntry(UpdateEntry(m, b, fb, cb), a, fa, ca)
  {
  }

  /** The panel listing the strings of the current instrument. */
  class StringList {
    var stringWidgets: map<int, StringState>

    constructor ()
      ensures stringWidgets == map[]
    {
      stringWidgets := map[];
    }

    /** Clears the panel and adds the instrument's strings numbered from 1. */
    method AddStrings(instrument: Instrument)
      modifies this
      ensures stringWidgets == StringsOf(instrument.GetStringNotes())
    {
      var notes := instrument.GetStringNotes();
      stringWidgets := map[];
      for i := 0 to |notes|
        invariant stringWidgets == StringsOf(notes[..i])
      {
        assert notes[..i + 1][..i] == notes[..i];
        stringWidgets := stringWidgets[i + 1 := NewStringState(i + 1, notes[i])];
      }
      assert notes[..|notes|] == notes;
    }

    method UpdateString(stringNumber: int, detectedFreq: real, cents: real)
      modifies this
      ensures stringWidgets == UpdateEntry(old(stringWidgets), stringNumber, detectedFreq, cents)
    {
      if stringNumber in stringWidgets {
        var widget := stringWidgets[stringNumber];
        widget := widget.(detectedFreq := detectedFreq);
        widget := widget.(centsOff := cents);
        widget := widget.(isInTune := InTune(cents));
        stringWidgets := stringWidgets[stringNumber := widget];
      }
    }
  }

  // ---------------------------------------------------------------------
  // Crediting a pitch to a string

  function Distance(note: Note, detected: real): real
  {
    Abs(note.frequency - detected)
  }

  /** The first position holding a target nearest to `detected`. */
  function FirstClosest(strings: seq<Note>, detected: real): (k: nat)
    requires |strings| > 0
    ensures k < |strings|
    ensures forall j :: 0 <= j < |strings| ==> Distance(strings[k], detected) <= Distance(strings[j], detected)
    ensures forall j :: 0 <= j < k ==> Distance(strings[j], detected) > Distance(strings[k], detected)
  {
    if |strings| == 1 then 0
    else
      var k := FirstClosest(strings[..|strings| - 1], detected);
      if Distance(strings[|strings| - 1], detected) < Distance(strings[k], detected) then |strings| - 1 else k
  }

  lemma FirstClosestSnoc(strings: seq<Note>, i: int, detected: real)
    requires 0 < i < |strings|
    ensures FirstClosest(strings[..i + 1], detected) ==
      if Distance(strings[i], detected) < Distance(strings[FirstClosest(strings[..i], detected)], detected)
      then i else FirstClosest(strings[..i], detected)
  {
    assert strings[..i + 1][..i] == strings[..i];
  }

  /** The closest-string scan of `update_frequency`. */
  method ClosestString(strings: seq<Note>, detected: real) returns (closestIdx: nat, minDiff: real)
    requires |strings| > 0
    ensures closestIdx == FirstClosest(strings, detected)
    ensures minDiff == Distance(strings[closestIdx], detected)
  {
    closestIdx := 0;
    minDiff := Abs(strings[0].frequency - detected);
    for i := 0 to |strings|
      invariant i == 0 ==> closestIdx == 0
      invariant i > 0 ==> closestIdx == FirstClosest(strings[..i], detected)
      invariant closestIdx < |strings| && minDiff == Distance(strings[closestIdx], detected)
    {
      var diff := Abs(strings[i].frequency - detected);
      if diff < minDiff {
        minDiff := diff;
        closestIdx := i;
      }
      if i > 0 {
        FirstClosestSnoc(strings, i, detected);
      }
    }
    assert strings[..|strings|] == strings;
  }

  /** The 1-based string a reading is credited to: the first nearest
      target, provided it lies within 500 Hz; none without strings. */
  function CreditedString(strings: seq<Note>, detected: real): (r: Option<int>)
    ensures r.None? <==> |strings| == 0 || Distance(strings[FirstClosest(strings, detected)], detected) >= 500.0
    ensures r.Some? ==> r.value == FirstClosest(strings, detected) + 1 && 1 <= r.value <= |strings|
  {
    if |strings| == 0 then None
    else
      var k := FirstClosest(strings, detected);
      if Distance(strings[k], detected) < 500.0 then Some(k + 1) else None
  }

  /** A reading without a pitch (frequency 0, cents 0) is still credited to
      the string nearest 0 Hz when one is below 500 Hz, and flags it in tune. */
  lemma SilenceMarksLowestString(strings: seq<Note>, j: int)
    requires 0 <= j < |strings| && 0.0 <= strings[j].frequency < 500.0
    ensures CreditedString(strings, 0.0).Some?
    ensures var m := UpdateEntry(StringsOf(strings), CreditedString(strings, 0.0).value, 0.0, 0.0);
      m[CreditedString(strings, 0.0).value].isInTune
  {
    var k := FirstClosest(strings, 0.0);
    assert Distance(strings[k], 0.0) <= Distance(strings[j], 0.0);
  }

  // ---------------------------------------------------------------------
  // The application

  /** The fields of the main display widget. */
  datatype DisplayState = DisplayState(
    frequency: real,
    noteName: string,
    centsOff: real,
    confidence: real,
    isValid: bool)

  const InitialDisplay := DisplayState(0.0, "---", 0.0, 0.0, false)

  /** What the display shows for one detector result. */
  function Shown(result: Audio.FrequencyResult, log2: real -> real): (d: DisplayState)
    ensures d.isValid == result.isValid && d.frequency == result.frequency
    ensures d.confidence == result.confidence
    ensures result.frequency > 0.0 ==> (d.noteName, d.centsOff) == FrequencyToNote(result.frequency, log2)
    ensures result.frequency <= 0.0 ==> d.noteName == "---" && d.centsOff == 0.0
    ensures !result.isValid ==> TuningStatus(d.isValid, d.centsOff) == NoSignalStatus
    ensures -50.0 <= d.centsOff <= 50.0
  {
    var note := FrequencyToNote(result.frequency, log2);
    DisplayState(result.frequency, note.0, note.1, result.confidence, result.isValid)
  }

  /** The string panel after one display update. */
  function StringsAfter(
    m: map<int, StringState>, instrument: Option<Instrument>, result: Audio.FrequencyResult, cents: real)
    : (r: map<int, StringState>)
    ensures r.Keys == m.Keys
    ensures instrument.None? ==> r == m
    ensures forall k :: k in m ==>
      (instrument.None? || CreditedString(instrument.value.GetStringNotes(), result.frequency) != Some(k) ==> r[k] == m[k])
  {
    if instrument.None? then m
    else match CreditedString(instrument.value.GetStringNotes(), result.frequency)
      case None => m
      case Some(n) => UpdateEntry(m, n, result.frequency, cents)
  }

  class TunerApp {
    var tunerEngine: Audio.TunerEngine?
    var currentInstrument: Option<Instrument>
    var tunerDisplay: Option<DisplayState>
    var stringList: StringList?
    var isRunning: bool

    /** The application only runs with an engine that runs too. */
    ghost predicate Valid()
      reads this, tunerEngine
      reads if tunerEngine != null then {tunerEngine.capture} else {}
    {
      && (tunerEngine != null ==> tunerEngine.Valid())
      && (isRunning ==> tunerEngine != null && tunerEngine.isRunning)
    }

    constructor ()
      ensures Valid() && !isRunning
      ensures tunerEngine == null && currentInstrument == None && tunerDisplay == None && stringList == null
    {
      tunerEngine := null;
      currentInstrument := None;
      tunerDisplay := None;
      stringList := null;
      isRunning := false;
    }

    /** The widgets `compose` creates that the rules below read: the main
        display, showing nothing yet, and an empty string list. */
    method Compose()
      modifies this
      ensures tunerDisplay == Some(InitialDisplay) && fresh(stringList) && stringList.stringWidgets == map[]
      ensures tunerEngine == old(tunerEngine) && isRunning == old(isRunning)
      ensures currentInstrument == old(currentInstrument)
    {
      tunerDisplay := Some(InitialDisplay);
      stringList := new StringList();
    }

    /** `on_mount`: a fresh engine and the default instrument, whose strings
        fill the string list when there is one. */
    method OnMount(defaultInstrument: Instrument)
      requires Valid() && !isRunning
      modifies this, stringList
      ensures Valid() && !isRunning
      ensures fresh(tunerEngine) && !tunerEngine.isRunning
      ensures tunerEngine.detector == Audio.FrequencyDetector(Audio.DefaultConfig.sampleRate, 0.1)
      ensures tunerEngine.config == Audio.DefaultConfig
      ensures fresh(tunerEngine.capture) && tunerEngine.capture.stream == None
      ensures currentInstrument == Some(defaultInstrument)
      ensures stringList == old(stringList) && tunerDisplay == old(tunerDisplay)
      ensures stringList != null ==> stringList.stringWidgets == StringsOf(defaultInstrument.GetStringNotes())
    {
      tunerEngine := new Audio.TunerEngine(Audio.DefaultConfig.sampleRate);
      currentInstrument := Some(defaultInstrument);
      if stringList != null {
        stringList.AddStrings(defaultInstrument);
      }
    }

    /** `on_select_changed`: an empty selection changes nothing; an unknown
        name is reported and changes nothing; a known one becomes the
        current instrument and refills the string list. */
    method SelectInstrument(all: seq<Instrument>, name: string) returns (error: Option<Error>)
      requires Valid()
      modifies this, stringList
      ensures Valid()
      ensures tunerEngine == old(tunerEngine) && isRunning == old(isRunning)
      ensures stringList == old(stringList) && tunerDisplay == old(tunerDisplay)
      ensures name == "" || IndexByName(all, name).None? ==>
        && currentInstrument == old(currentInstrument)
        && (stringList != null ==> stringList.stringWidgets == old(stringList.stringWidgets))
      ensures error == if name != "" && IndexByName(all, name).None?
                       then Some(ValueError("Unknown instrument: " + name)) else None
      ensures name != "" && IndexByName(all, name).Some? ==>
        && currentInstrument == Some(all[IndexByName(all, name).value])
        && (stringList != null ==> stringList.stringWidgets == StringsOf(currentInstrument.value.GetStringNotes()))
    {
      if name == "" {
        return None;
      }
      var found := GetByName(all, name);
      if found.Failure? {
        return Some(found.error);
      }
      currentInstrument := Some(found.value);
      if stringList != null {
        stringList.AddStrings(found.value);
      }
      return None;
    }

    /** Starts the engine unless there is none or the tuner already runs. */
    method StartTuning(device: Audio.InputStream)
      requires Valid()
      modifies this, tunerEngine, if tunerEngine != null then {tunerEngine.capture} else {}
      ensures Valid()
      ensures tunerEngine == old(tunerEngine)
      ensures currentInstrument == old(currentInstrument) && tunerDisplay == old(tunerDisplay)
      ensures stringList == old(stringList)
      ensures old(tunerEngine == null || isRunning) ==> isRunning == old(isRunning)
      ensures old(tunerEngine != null && isRunning) ==>
        tunerEngine.isRunning == old(tunerEngine.isRunning) && tunerEngine.capture.stream == old(tunerEngine.capture.stream)
      ensures old(tunerEngine != null && !isRunning) ==>
        && isRunning && tunerEngine.isRunning
        && tunerEngine.capture.stream ==
             if old(tunerEngine.capture.stream).Some? then old(tunerEngine.capture.stream) else Some(device)
    {
      if tunerEngine == null || isRunning {
        return;
      }
      tunerEngine.Start(device);
      isRunning := true;
    }

    /** Stops the engine unless there is none or the tuner is not running. */
    method StopTuning()
      requires Valid()
      modifies this, tunerEngine, if tunerEngine != null then {tunerEngine.capture} else {}
      ensures Valid() && !isRunning
      ensures tunerEngine == old(tunerEngine)
      ensures currentInstrument == old(currentInstrument) && tunerDisplay == old(tunerDisplay)
      ensures stringList == old(stringList)
      ensures old(isRunning) ==> !tunerEngine.isRunning && tunerEngine.capture.stream == None
      ensures !old(isRunning) && tunerEngine != null ==>
        tunerEngine.isRunning == old(tunerEngine.isRunning) && tunerEngine.capture.stream == old(tunerEngine.capture.stream)
    {
      if tunerEngine == null || !isRunning {
        return;
      }
      tunerEngine.Stop();
      isRunning := false;
    }

    /** One pass of the update loop: read and detect, show the result, and
      credit it to the closest string; an error stops the loop. */
    method UpdateFrequencyOnce(block: seq<real>, hann: seq<real>, log2: real -> real)
      requires Valid() && isRunning && |hann| == |block|
      modifies this, stringList
      ensures Valid()
      ensures tunerEngine == old(tunerEngine) && stringList == old(stringList)
      ensures currentInstrument == old(currentInstrument)
      ensures tunerEngine.detector.Detect(block, hann).Failure? ==>
        && !isRunning && tunerDisplay == old(tunerDisplay)
        && (stringList != null ==> stringList.stringWidgets == old(stringList.stringWidgets))
      ensures tunerEngine.detector.Detect(block, hann).Success? ==>
        && isRunning
        && tunerDisplay == (if old(tunerDisplay).Some?
                            then Some(Shown(tunerEngine.detector.Detect(block, hann).value, log2))
                            else None)
      ensures tunerEngine.detector.Detect(block, hann).Success? && stringList != null ==>
        stringList.stringWidgets ==
          if old(tunerDisplay).None? then old(stringList.stringWidgets)
          else StringsAfter(old(stringList.stringWidgets), currentInstrument,
                            tunerEngine.detector.Detect(block, hann).value, tunerDisplay.value.centsOff)
    {
      var result := tunerEngine.GetFrequency(block, hann);
      if result.Failure? {
        isRunning := false;
        return;
      }
      if tunerDisplay.Some? {
        var shown := Shown(result.value, log2);
        tunerDisplay := Some(shown);
        if currentInstrument.Some? && stringList != null {
          CreditReading(stringList, currentInstrument.value.GetStringNotes(), result.value.frequency, shown.centsOff);
        }
      }
    }
  }

  /** The tail of the update loop: find the closest string and, when it is
      within 500 Hz, pass the reading to it by its 1-based number. */
  method CreditReading(list: StringList, strings: seq<Note>, detected: real, cents: real)
    modifies list
    ensures list.stringWidgets ==
      match CreditedString(strings, detected)
      case None => old(list.stringWidgets)
      case Some(n) => UpdateEntry(old(list.stringWidgets), n, detected, cents)
  {
    if |strings| > 0 {
      var closestIdx, minDiff := ClosestString(strings, detected);
      if minDiff < 500.0 {
        list.UpdateString(closestIdx + 1, detected, cents);
      }
    }
  }
}
