/** Equal-temperament note arithmetic anchored at A4 = 440 Hz (ISO 16),
    tuning strings such as "E2", and the instrument lookup. The logarithm and
    the powers of the semitone ratio are parameters: `log2` stands for
    `math.log2`, `ratioPow(k)` for `SEMITONE_RATIO ** k`. */
module Notes {
  import opened Common

  datatype Note = Note(name: string, frequency: real, octave: int)

  const A4Frequency := 440.0

  /** The twelve pitch classes of one octave, from C. */
  const NoteNames: seq<string> := ["C", "C#", "D", "D#", "E", "F", "F#", "G", "G#", "A", "A#", "B"]

  /** Name to position in NoteNames, written out. */
  const NoteIndices: map<string, int> :=
    map["C" := 0, "C#" := 1, "D" := 2, "D#" := 3, "E" := 4, "F" := 5,
        "F#" := 6, "G" := 7, "G#" := 8, "A" := 9, "A#" := 10, "B" := 11]

  /** NoteIndices maps each name to its own position in NoteNames. */
  lemma NameIndex(i: int)
    requires 0 <= i < 12
    ensures NoteNames[i] in NoteIndices && NoteIndices[NoteNames[i]] == i
  {
    if i == 0 {} else if i == 1 {} else if i == 2 {} else if i == 3 {}
    else if i == 4 {} else if i == 5 {} else if i == 6 {} else if i == 7 {}
    else if i == 8 {} else if i == 9 {} else if i == 10 {} else {}
  }

  /** NoteIndices inverts NoteNames: the twelve names are distinct, each is
      mapped to its own position, and nothing else is mapped. */
  lemma NoteIndicesInvert()
    ensures |NoteNames| == 12
    ensures forall i, j :: 0 <= i < j < 12 ==> NoteNames[i] != NoteNames[j]
    ensures forall i :: 0 <= i < 12 ==> NoteNames[i] in NoteIndices && NoteIndices[NoteNames[i]] == i
    ensures forall x :: x in NoteIndices ==> 0 <= NoteIndices[x] < 12 && NoteNames[NoteIndices[x]] == x
  {
    forall i | 0 <= i < 12
      ensures NoteNames[i] in NoteIndices && NoteIndices[NoteNames[i]] == i
    {
      NameIndex(i);
    }
  }

  // ---------------------------------------------------------------------
  // Semitones, pitch classes and octaves

  /** Python's `round` on a float: the nearest integer, ties to the even one. */
  function RoundHalfEven(x: real): (n: int)
    ensures -0.5 <= x - n as real <= 0.5
    ensures x - n as real == 0.5 || x - n as real == -0.5 ==> n % 2 == 0
  {
    var f := x.Floor;
    var d := x - f as real;
    if d < 0.5 then f
    else if d > 0.5 then f + 1
    else if f % 2 == 0 then f
    else f + 1
  }

  /** Pitch class of the note n semitones from A4, `(9 + n) % 12`; with a
      positive divisor Dafny's `%` and `/` agree with Python's `%` and `//`. */
  function NoteIndexOf(n: int): (i: int)
    ensures 0 <= i < 12
  {
    (9 + n) % 12
  }

  /** Octave of the note n semitones from A4, `4 + (9 + n) // 12`: the
      octave whose twelve semitones contain it, counting down for negative n. */
  function OctaveOf(n: int): (o: int)
    ensures 12 * (o - 4) <= 9 + n < 12 * (o - 3)
  {
    4 + (9 + n) / 12
  }

  /** The offset from A4 `note_to_frequency` computes. */
  function SemitonesFromA4(noteIdx: int, octave: int): (n: int)
    ensures 0 <= noteIdx < 12 ==> 12 * (octave - 4) - 9 <= n <= 12 * (octave - 4) + 2
    ensures 0 <= noteIdx < 12 ==> (n == 0 <==> noteIdx == 9 && octave == 4)
  {
    (octave - 4) * 12 + (noteIdx - 9)
  }

  /** Offset to (pitch class, octave) and back gives the offset. */
  lemma SemitoneRoundTrip(n: int)
    ensures SemitonesFromA4(NoteIndexOf(n), OctaveOf(n)) == n
  {
  }

  /** (pitch class, octave) to offset and back gives the pair. */
  lemma NoteRoundTrip(noteIdx: int, octave: int)
    requires 0 <= noteIdx < 12
    ensures NoteIndexOf(SemitonesFromA4(noteIdx, octave)) == noteIdx
    ensures OctaveOf(SemitonesFromA4(noteIdx, octave)) == octave
  {
    var n := SemitonesFromA4(noteIdx, octave);
    assert 9 + n == 12 * (octave - 4) + noteIdx;
  }

  function DigitChar(d: int): (c: char)
    requires 0 <= d < 10
    ensures '0' <= c <= '9'
  {
    "0123456789"[d]
  }

  /** Python's `str` on a natural number. */
  function NatToString(n: nat): (s: string)
    ensures |s| >= 1 && '0' <= s[0] <= '9'
    ensures n < 10 ==> s == [DigitChar(n)]
    decreases n
  {
    if n < 10 then [DigitChar(n)] else NatToString(n / 10) + [DigitChar(n % 10)]
  }

  /** Python's `str` on an integer. */
  function IntToString(n: int): (s: string)
    ensures |s| >= 1
    ensures s[0] == '-' <==> n < 0
    ensures 0 <= n < 10 ==> s == [DigitChar(n)]
  {
    if n < 0 then "-" + NatToString(-n) else NatToString(n)
  }

  /** `str` of a natural number consists of decimal digits only. */
  lemma {:induction false} NatToStringDigits(n: nat)
    ensures forall i :: 0 <= i < |NatToString(n)| ==> '0' <= NatToString(n)[i] <= '9'
    decreases n
  {
    if n >= 10 {
      NatToStringDigits(n / 10);
    }
  }

  /** `str` of an integer is an optional minus sign followed by digits. */
  lemma IntToStringDigits(n: int)
    ensures var s := IntToString(n); var k := if n < 0 then 1 else 0;
      |s| > k && forall i :: k <= i < |s| ==> '0' <= s[i] <= '9'
  {
    if n < 0 {
      NatToStringDigits(-n);
    } else {
      NatToStringDigits(n);
    }
  }

  /** `f"{note_name}{octave}"` for the note n semitones from A4. */
  function NoteLabel(n: int): string
  {
    NoteNames[NoteIndexOf(n)] + IntToString(OctaveOf(n))
  }

  /** A label is the pitch-class name followed by the octave in decimal:
      it starts with the name, ends with a digit, and a one-digit octave is
      that single digit. */
  lemma NoteLabelShape(n: int)
    ensures var name, s := NoteNames[NoteIndexOf(n)], NoteLabel(n);
      && |s| > |name| && s[..|name|] == name && '0' <= s[|s| - 1] <= '9'
      && (0 <= OctaveOf(n) < 10 ==> s == name + [DigitChar(OctaveOf(n))])
  {
    var name, s := NoteNames[NoteIndexOf(n)], NoteLabel(n);
    IntToStringDigits(OctaveOf(n));
    assert s == name + IntToString(OctaveOf(n));
    assert s[..|name|] == name;
  }

  /** The part of `frequency_to_note` after the logarithm: label of the
      nearest semitone and the signed distance to it in cents. */
  function NoteForSemitone(semitones: real): (r: (string, real))
    ensures -50.0 <= r.1 <= 50.0
    ensures r.0 == NoteLabel(RoundHalfEven(semitones))
    ensures r.1 == 0.0 <==> semitones == RoundHalfEven(semitones) as real
  {
    var nearest := RoundHalfEven(semitones);
    (NoteLabel(nearest), (semitones - nearest as real) * 100.0)
  }

  /** `frequency_to_note`: "---" with 0 cents for a frequency that is not
      positive, otherwise the nearest equal-tempered note and the cents off. */
  function FrequencyToNote(frequency: real, log2: real -> real): (r: (string, real))
    ensures frequency <= 0.0 ==> r == ("---", 0.0)
    ensures -50.0 <= r.1 <= 50.0
  {
    if frequency <= 0.0 then ("---", 0.0)
    else NoteForSemitone(12.0 * log2(frequency / A4Frequency))
  }

  /** The reference pitch is A4, in tune. */
  lemma ConcertPitch(log2: real -> real)
    requires log2(1.0) == 0.0
    ensures FrequencyToNote(440.0, log2) == ("A4", 0.0)
  {
    assert 440.0 / A4Frequency == 1.0;
    assert 12.0 * log2(440.0 / A4Frequency) == 0.0;
    assert RoundHalfEven(0.0) == 0;
    assert NoteIndexOf(0) == 9 && OctaveOf(0) == 4;
    assert IntToString(4) == "4";
    assert NoteLabel(0) == "A4";
  }

  /** Both ends of [-50, 50] occur: half a semitone above a note whose
      offset is even reads +50 cents, half a semitone above an odd one -50. */
  lemma CentsReachBothEnds()
    ensures NoteForSemitone(0.5).1 == 50.0
    ensures NoteForSemitone(1.5).1 == -50.0
  {
    assert RoundHalfEven(0.5) == 0;
    assert RoundHalfEven(1.5) == 2;
  }

  /** `note_to_frequency`: unknown names raise ValueError. */
  function NoteToFrequency(name: string, octave: int, ratioPow: int -> real): (r: Result<real>)
    ensures r.Success? <==> name in NoteIndices
    ensures r.Failure? ==> r.error == ValueError("Unknown note: " + name)
  {
    if name !in NoteIndices then Failure(ValueError("Unknown note: " + name))
    else Success(A4Frequency * ratioPow(SemitonesFromA4(NoteIndices[name], octave)))
  }

  /** `log2` and `ratioPow` describe 12-tone equal temperament: every power
      of the ratio is positive and twelve times its logarithm is its exponent. */
  ghost predicate Tempered(log2: real -> real, ratioPow: int -> real)
  {
    && (forall k: int :: ratioPow(k) > 0.0)
    && (forall k: int :: 12.0 * log2(ratioPow(k)) == k as real)
  }

  /** The powers of the ratio grow with the exponent. */
  ghost predicate Increasing(ratioPow: int -> real)
  {
    forall j: int, k: int :: j < k ==> ratioPow(j) < ratioPow(k)
  }

  lemma NameFrequency(i: int, octave: int, ratioPow: int -> real)
    requires 0 <= i < 12
    ensures NoteToFrequency(NoteNames[i], octave, ratioPow)
      == Success(A4Frequency * ratioPow(SemitonesFromA4(i, octave)))
  {
    NameIndex(i);
  }

  /** Every key of NoteIndices names the position it is mapped to. */
  lemma IndexNames(name: string)
    requires name in NoteIndices
    ensures 0 <= NoteIndices[name] < 12 && NoteNames[NoteIndices[name]] == name
  {
  }

  /** Naming the equal-tempered frequency of a known note gives that note
      back, exactly in tune. */
  lemma FrequencyToNoteInverts(name: string, octave: int, log2: real -> real, ratioPow: int -> real)
    requires Tempered(log2, ratioPow)
    requires name in NoteIndices
    ensures NoteToFrequency(name, octave, ratioPow).Success?
    ensures FrequencyToNote(NoteToFrequency(name, octave, ratioPow).value, log2)
      == (name + IntToString(octave), 0.0)
  {
    IndexNames(name);
    var k := SemitonesFromA4(NoteIndices[name], octave);
    var f := A4Frequency * ratioPow(k);
    assert NoteToFrequency(name, octave, ratioPow) == Success(f);
    assert ratioPow(k) > 0.0 && 12.0 * log2(ratioPow(k)) == k as real;
    TemperedSemitone(k, log2, ratioPow);
    LabelOfNote(NoteIndices[name], octave);
    assert FrequencyToNote(f, log2) == (NoteLabel(k), 0.0);
  }

  lemma LabelOfNote(i: int, octave: int)
    requires 0 <= i < 12
    ensures NoteLabel(SemitonesFromA4(i, octave)) == NoteNames[i] + IntToString(octave)
  {
    NoteRoundTrip(i, octave);
  }

  /** The tempered frequency k semitones from A4 is named by offset k. */
  lemma TemperedSemitone(k: int, log2: real -> real, ratioPow: int -> real)
    requires ratioPow(k) > 0.0 && 12.0 * log2(ratioPow(k)) == k as real
    ensures FrequencyToNote(A4Frequency * ratioPow(k), log2) == (NoteLabel(k), 0.0)
  {
    TemperedOffset(k, ratioPow(k), log2);
    WholeSemitone(k);
  }

  lemma TemperedOffset(k: int, p: real, log2: real -> real)
    requires p > 0.0 && 12.0 * log2(p) == k as real
    ensures FrequencyToNote(A4Frequency * p, log2) == NoteForSemitone(k as real)
  {
    var f := A4Frequency * p;
    assert f > 0.0 && f / A4Frequency == p;
  }

  /** A whole semitone offset is named by itself, in tune. */
  lemma WholeSemitone(k: int)
    ensures NoteForSemitone(k as real) == (NoteLabel(k), 0.0)
  {
    assert RoundHalfEven(k as real) == k;
  }

  // ---------------------------------------------------------------------
  // Notes in a frequency range

  /** The 108 candidate notes of octaves 0..8 in the order the loops visit
      them: octave by octave, each from C to B. */
  function AllNotes(ratioPow: int -> real): (s: seq<Note>)
    ensures |s| == 108
  {
    seq(108, k requires 0 <= k < 108 =>
      Note(NoteNames[k % 12], A4Frequency * ratioPow(SemitonesFromA4(k % 12, k / 12)), k / 12))
  }

  /** The notes of s whose frequency lies in [lo, hi], in their order. */
  function InRange(s: seq<Note>, lo: real, hi: real): (r: seq<Note>)
    ensures forall x :: x in r ==> x in s && lo <= x.frequency <= hi
    ensures forall x :: x in s && lo <= x.frequency <= hi ==> x in r
  {
    if s == [] then []
    else
      var last := s[|s| - 1];
      InRange(s[..|s| - 1], lo, hi) + (if lo <= last.frequency <= hi then [last] else [])
  }

  /** Filtering keeps each element at most as often as the input has it. */
  lemma {:induction false} InRangeSubMultiset(s: seq<Note>, lo: real, hi: real)
    ensures multiset(InRange(s, lo, hi)) <= multiset(s)
  {
    if s != [] {
      assert s == s[..|s| - 1] + [s[|s| - 1]];
      InRangeSubMultiset(s[..|s| - 1], lo, hi);
    }
  }

  ghost predicate Sorted(s: seq<Note>)
  {
    forall i, j :: 0 <= i < j < |s| ==> s[i].frequency <= s[j].frequency
  }

  /** Places x after every element of s whose frequency is at most x's. */
  function Insert(x: Note, s: seq<Note>): (r: seq<Note>)
    ensures multiset(r) == multiset(s) + multiset{x}
  {
    if s == [] then [x]
    else if s[|s| - 1].frequency <= x.frequency then s + [x]
    else
      assert s == s[..|s| - 1] + [s[|s| - 1]];
      Insert(x, s[..|s| - 1]) + [s[|s| - 1]]
  }

  lemma {:induction false} InsertSorted(x: Note, s: seq<Note>)
    requires Sorted(s)
    ensures Sorted(Insert(x, s))
  {
    if s != [] && s[|s| - 1].frequency > x.frequency {
      var prefix, last := s[..|s| - 1], s[|s| - 1];
      var r' := Insert(x, prefix);
      assert Sorted(r') by {
        SortedPrefix(s);
        InsertSorted(x, prefix);
      }
      forall y | y in r'
        ensures y.frequency <= last.frequency
      {
        assert y in multiset(r');
        if y != x {
          assert y in prefix;
        }
      }
      assert Insert(x, s) == r' + [last];
      SortedSnoc(r', last);
    }
  }

  lemma SortedSnoc(s: seq<Note>, last: Note)
    requires Sorted(s) && forall y :: y in s ==> y.frequency <= last.frequency
    ensures Sorted(s + [last])
  {
    var t := s + [last];
    forall i, j | 0 <= i < j < |t|
      ensures t[i].frequency <= t[j].frequency
    {
      if j == |s| {
        assert t[i] in s;
      }
    }
  }

  /** `sorted(notes, key=lambda n: n.frequency)`: a stable insertion sort. */
  function SortByFrequency(s: seq<Note>): (r: seq<Note>)
    ensures multiset(r) == multiset(s)
    ensures Sorted(r)
  {
    if s == [] then []
    else
      assert s == s[..|s| - 1] + [s[|s| - 1]];
      var sorted := SortByFrequency(s[..|s| - 1]);
      InsertSorted(s[|s| - 1], sorted);
      Insert(s[|s| - 1], sorted)
  }

  /** What `get_notes_in_range` returns. */
  function NotesInRange(lo: real, hi: real, ratioPow: int -> real): (r: seq<Note>)
    ensures Sorted(r)
  {
    SortByFrequency(InRange(AllNotes(ratioPow), lo, hi))
  }

  /** The k-th candidate is pitch class k % 12 of octave k / 12, at the
      frequency `note_to_frequency` gives it. */
  lemma AllNotesAt(k: int, ratioPow: int -> real)
    requires 0 <= k < 108
    ensures NoteToFrequency(NoteNames[k % 12], k / 12, ratioPow).Success?
    ensures AllNotes(ratioPow)[k]
      == Note(NoteNames[k % 12], NoteToFrequency(NoteNames[k % 12], k / 12, ratioPow).value, k / 12)
  {
    NameFrequency(k % 12, k / 12, ratioPow);
  }

  lemma InRangeSnoc(s: seq<Note>, k: int, lo: real, hi: real)
    requires 0 <= k < |s|
    ensures InRange(s[..k + 1], lo, hi)
      == InRange(s[..k], lo, hi) + (if lo <= s[k].frequency <= hi then [s[k]] else [])
  {
    assert s[..k + 1][..k] == s[..k];
  }

  /** One step of the nested loops: candidate (i, octave) joins the filtered
      prefix exactly when its frequency is in range. */
  lemma CollectStep(octave: int, i: int, lo: real, hi: real, ratioPow: int -> real)
    requires 0 <= octave < 9 && 0 <= i < 12
    ensures NoteToFrequency(NoteNames[i], octave, ratioPow).Success?
    ensures var all, f := AllNotes(ratioPow), NoteToFrequency(NoteNames[i], octave, ratioPow).value;
      InRange(all[..12 * octave + i + 1], lo, hi)
        == InRange(all[..12 * octave + i], lo, hi) + (if lo <= f <= hi then [Note(NoteNames[i], f, octave)] else [])
  {
    var k := 12 * octave + i;
    assert k % 12 == i && k / 12 == octave;
    AllNotesAt(k, ratioPow);
    InRangeSnoc(AllNotes(ratioPow), k, lo, hi);
  }

  /** `get_notes_in_range`: collect in the loops' order, then sort. */
  method GetNotesInRange(minFreq: real, maxFreq: real, ratioPow: int -> real) returns (notes: seq<Note>)
    ensures notes == NotesInRange(minFreq, maxFreq, ratioPow)
  {
    ghost var all := AllNotes(ratioPow);
    var collected: seq<Note> := [];
    for octave := 0 to 9
      invariant collected == InRange(all[..12 * octave], minFreq, maxFreq)
    {
      for i := 0 to 12
        invariant collected == InRange(all[..12 * octave + i], minFreq, maxFreq)
      {
        var name := NoteNames[i];
        CollectStep(octave, i, minFreq, maxFreq, ratioPow);
        var freq := NoteToFrequency(name, octave, ratioPow).value;
        if minFreq <= freq <= maxFreq {
          collected := collected + [Note(name, freq, octave)];
        }
      }
    }
    assert all[..108] == all;
    notes := SortByFrequency(collected);
  }

  /** Every returned note lies in the range, belongs to octaves 0..8 and
      carries its own equal-tempered frequency; every such note in range is
      returned; and the list is sorted by frequency. */
  lemma NotesInRangeFacts(lo: real, hi: real, ratioPow: int -> real)
    ensures Sorted(NotesInRange(lo, hi, ratioPow))
    ensures multiset(NotesInRange(lo, hi, ratioPow)) <= multiset(AllNotes(ratioPow))
    ensures forall x :: x in NotesInRange(lo, hi, ratioPow) ==>
      && lo <= x.frequency <= hi
      && 0 <= x.octave <= 8
      && NoteToFrequency(x.name, x.octave, ratioPow) == Success(x.frequency)
    ensures forall i, octave :: 0 <= i < 12 && 0 <= octave <= 8 ==>
      var f := NoteToFrequency(NoteNames[i], octave, ratioPow);
      (f.Success? && lo <= f.value <= hi ==> Note(NoteNames[i], f.value, octave) in NotesInRange(lo, hi, ratioPow))
  {
    var all := AllNotes(ratioPow);
    var filtered := InRange(all, lo, hi);
    var r := NotesInRange(lo, hi, ratioPow);
    InRangeSubMultiset(all, lo, hi);
    forall x | x in r
      ensures lo <= x.frequency <= hi && 0 <= x.octave <= 8
      ensures NoteToFrequency(x.name, x.octave, ratioPow) == Success(x.frequency)
    {
      RangeMember(x, lo, hi, ratioPow);
    }
    forall i, octave | 0 <= i < 12 && 0 <= octave <= 8
      ensures var f := NoteToFrequency(NoteNames[i], octave, ratioPow);
        f.Success? && lo <= f.value <= hi ==> Note(NoteNames[i], f.value, octave) in r
    {
      var k := 12 * octave + i;
      assert k % 12 == i && k / 12 == octave;
      AllNotesAt(k, ratioPow);
      var f := NoteToFrequency(NoteNames[i], octave, ratioPow);
      if lo <= f.value <= hi {
        assert all[k] in filtered;
        assert all[k] in multiset(r);
      }
    }
  }

  /** No candidate occurs twice: distinct positions differ in name or octave. */
  lemma AllNotesDistinct(ratioPow: int -> real)
    ensures forall i, j :: 0 <= i < j < 108 ==> AllNotes(ratioPow)[i] != AllNotes(ratioPow)[j]
  {
    forall i, j | 0 <= i < j < 108
      ensures AllNotes(ratioPow)[i] != AllNotes(ratioPow)[j]
    {
      if i % 12 != j % 12 {
        NoteIndicesInvert();
        assert NoteNames[i % 12] != NoteNames[j % 12];
      } else {
        assert i / 12 != j / 12;
      }
    }
  }

  lemma RangeMember(x: Note, lo: real, hi: real, ratioPow: int -> real)
    requires x in NotesInRange(lo, hi, ratioPow)
    ensures lo <= x.frequency <= hi && 0 <= x.octave <= 8
    ensures NoteToFrequency(x.name, x.octave, ratioPow) == Success(x.frequency)
  {
    var all := AllNotes(ratioPow);
    assert x in multiset(NotesInRange(lo, hi, ratioPow));
    assert x in InRange(all, lo, hi);
    var k :| 0 <= k < 108 && all[k] == x;
    AllNotesAt(k, ratioPow);
  }

  /** Since the loops visit notes in rising semitone order, the sort keeps
      the collected list as it is. */
  lemma NotesInRangeNeedNoSort(lo: real, hi: real, ratioPow: int -> real)
    requires Increasing(ratioPow)
    ensures NotesInRange(lo, hi, ratioPow) == InRange(AllNotes(ratioPow), lo, hi)
  {
    var all := AllNotes(ratioPow);
    forall i, j | 0 <= i < j < |all|
      ensures all[i].frequency <= all[j].frequency
    {
      assert SemitonesFromA4(i % 12, i / 12) < SemitonesFromA4(j % 12, j / 12);
    }
    InRangeKeepsSorted(all, lo, hi);
    SortKeepsSorted(InRange(all, lo, hi));
  }

  lemma {:induction false} InRangeKeepsSorted(s: seq<Note>, lo: real, hi: real)
    requires Sorted(s)
    ensures Sorted(InRange(s, lo, hi))
  {
    if s != [] {
      var prefix := s[..|s| - 1];
      assert Sorted(prefix);
      InRangeKeepsSorted(prefix, lo, hi);
      var p := InRange(prefix, lo, hi);
      forall y | y in p
        ensures y.frequency <= s[|s| - 1].frequency
      {
        var k :| 0 <= k < |prefix| && prefix[k] == y;
      }
    }
  }

  lemma {:induction false} SortKeepsSorted(s: seq<Note>)
    requires Sorted(s)
    ensures SortByFrequency(s) == s
  {
    if s != [] {
      var prefix, last := s[..|s| - 1], s[|s| - 1];
      assert SortByFrequency(prefix) == prefix by {
        SortedPrefix(s);
        SortKeepsSorted(prefix);
      }
      assert Insert(last, prefix) == prefix + [last] by {
        assert prefix != [] ==> prefix[|prefix| - 1].frequency <= last.frequency;
      }
      assert s == prefix + [last];
    }
  }

  lemma SortedPrefix(s: seq<Note>)
    requires Sorted(s) && s != []
    ensures Sorted(s[..|s| - 1])
  {
  }

  // ---------------------------------------------------------------------
  // Tuning strings and instruments

  /** Python's `int` on one character, for the ASCII digits. */
  function DigitValue(c: char): (d: Option<int>)
    ensures d.Some? <==> '0' <= c <= '9'
    ensures d.Some? ==> 0 <= d.value < 10 && DigitChar(d.value) == c
  {
    if '0' <= c <= '9' then Some(c as int - '0' as int) else None
  }

  /** One tuning string such as "E2": the name is all but the last
      character, the octave the last character read as a digit. */
  function ParseNote(s: string, ratioPow: int -> real): (r: Result<Note>)
    ensures |s| == 0 ==> r.Failure? && r.error.IndexError?
    ensures r.Success? ==> && |s| >= 1
                           && r.value.name == s[..|s| - 1]
                           && DigitValue(s[|s| - 1]) == Some(r.value.octave)
                           && NoteToFrequency(r.value.name, r.value.octave, ratioPow) == Success(r.value.frequency)
  {
    if |s| == 0 then Failure(IndexError("string index out of range"))
    else
      var name := s[..|s| - 1];
      match DigitValue(s[|s| - 1])
      case None => Failure(ValueError("invalid literal for int() with base 10: '" + [s[|s| - 1]] + "'"))
      case Some(octave) =>
        match NoteToFrequency(name, octave, ratioPow)
        case Failure(e) => Failure(e)
        case Success(f) => Success(Note(name, f, octave))
  }

  /** A label `frequency_to_note` produces for octaves 0..9 parses back to
      the same note. */
  lemma ParseNoteOfLabel(i: int, octave: int, ratioPow: int -> real)
    requires 0 <= i < 12 && 0 <= octave <= 9
    ensures ParseNote(NoteNames[i] + IntToString(octave), ratioPow)
      == Success(Note(NoteNames[i], A4Frequency * ratioPow(SemitonesFromA4(i, octave)), octave))
  {
    var s := NoteNames[i] + IntToString(octave);
    assert IntToString(octave) == [DigitChar(octave)];
    assert s[..|s| - 1] == NoteNames[i];
    assert DigitValue(s[|s| - 1]) == Some(octave);
    NameFrequency(i, octave, ratioPow);
  }

  /** `_parse_tuning`: every string parsed in order; the first failure is
      what the loop raises. */
  function ParseAll(tuning: seq<string>, ratioPow: int -> real): (r: Result<seq<Note>>)
    ensures r.Success? ==> |r.value| == |tuning|
    ensures r.Failure? ==> exists i :: 0 <= i < |tuning| && ParseNote(tuning[i], ratioPow) == Failure(r.error)
  {
    if tuning == [] then Success([])
    else
      match ParseAll(tuning[..|tuning| - 1], ratioPow)
      case Failure(e) => Failure(e)
      case Success(notes) =>
        match ParseNote(tuning[|tuning| - 1], ratioPow)
        case Failure(e) => Failure(e)
        case Success(n) => Success(notes + [n])
  }

  /** A failure in a prefix is the failure of the whole list. */
  lemma {:induction false} ParseAllPrefixFailure(tuning: seq<string>, k: nat, ratioPow: int -> real)
    requires k <= |tuning| && ParseAll(tuning[..k], ratioPow).Failure?
    ensures ParseAll(tuning, ratioPow) == ParseAll(tuning[..k], ratioPow)
    decreases |tuning| - k
  {
    if k < |tuning| {
      assert tuning[..k + 1][..k] == tuning[..k];
      ParseAllPrefixFailure(tuning, k + 1, ratioPow);
    } else {
      assert tuning[..k] == tuning;
    }
  }

  /** A successful parse has one note per string, in order, each the parse
      of its string; the parse fails exactly when some string fails. */
  lemma {:induction false} ParseAllShape(tuning: seq<string>, ratioPow: int -> real)
    ensures ParseAll(tuning, ratioPow).Success? <==>
      forall i :: 0 <= i < |tuning| ==> ParseNote(tuning[i], ratioPow).Success?
    ensures ParseAll(tuning, ratioPow).Success? ==>
      && |ParseAll(tuning, ratioPow).value| == |tuning|
      && forall i :: 0 <= i < |tuning| ==> ParseAll(tuning, ratioPow).value[i] == ParseNote(tuning[i], ratioPow).value
  {
    if tuning != [] {
      var prefix := tuning[..|tuning| - 1];
      ParseAllShape(prefix, ratioPow);
      assert forall i :: 0 <= i < |prefix| ==> prefix[i] == tuning[i];
    }
  }

  /** `_parse_tuning` as the loop the source runs. */
  method ParseTuning(tuning: seq<string>, ratioPow: int -> real) returns (r: Result<seq<Note>>)
    ensures r == ParseAll(tuning, ratioPow)
  {
    var notes: seq<Note> := [];
    for i := 0 to |tuning|
      invariant ParseAll(tuning[..i], ratioPow) == Success(notes)
    {
      assert tuning[..i + 1][..i] == tuning[..i];
      var n := ParseNote(tuning[i], ratioPow);
      if n.Failure? {
        ParseAllPrefixFailure(tuning, i + 1, ratioPow);
        return Failure(n.error);
      }
      notes := notes + [n.value];
    }
    assert tuning[..|tuning|] == tuning;
    return Success(notes);
  }

  /** An instrument keeps the strings it was built from and their notes. */
  datatype Instrument = Instrument(name: string, tuningNotes: seq<string>, strings: seq<Note>)
  {
    /** `get_string_notes`: the notes the instrument was built with. */
    function GetStringNotes(): (r: seq<Note>)
      ensures r == strings
    { strings }
  }

  /** `Instrument(name, tuning)`: raises what parsing the tuning raises. */
  method NewInstrument(name: string, tuning: seq<string>, ratioPow: int -> real) returns (r: Result<Instrument>)
    ensures ParseAll(tuning, ratioPow).Failure? ==> r == Failure(ParseAll(tuning, ratioPow).error)
    ensures ParseAll(tuning, ratioPow).Success? ==>
      r == Success(Instrument(name, tuning, ParseAll(tuning, ratioPow).value))
    ensures r.Success? ==> |r.value.GetStringNotes()| == |tuning|
  {
    var strings := ParseTuning(tuning, ratioPow);
    ParseAllShape(tuning, ratioPow);
    if strings.Failure? {
      return Failure(strings.error);
    }
    return Success(Instrument(name, tuning, strings.value));
  }

  /** `str.lower` on ASCII letters. */
  function LowerChar(c: char): char
  {
    if 'A' <= c <= 'Z' then (c as int + 32) as char else c
  }

  function Lower(s: string): (r: string)
    ensures |r| == |s|
    ensures forall i :: 0 <= i < |s| ==> r[i] == LowerChar(s[i])
  {
    seq(|s|, i requires 0 <= i < |s| => LowerChar(s[i]))
  }

  lemma LowerIdempotent(s: string)
    ensures Lower(Lower(s)) == Lower(s)
  {
  }

  /** Position of the first instrument whose name matches ignoring case. */
  function IndexByName(all: seq<Instrument>, name: string): (r: Option<nat>)
    ensures r.Some? ==> r.value < |all| && Lower(all[r.value].name) == Lower(name)
    ensures r.Some? ==> forall j :: 0 <= j < r.value ==> Lower(all[j].name) != Lower(name)
    ensures r.None? ==> forall j :: 0 <= j < |all| ==> Lower(all[j].name) != Lower(name)
  {
    if all == [] then None
    else if Lower(all[0].name) == Lower(name) then Some(0)
    else match IndexByName(all[1..], name)
      case None => None
      case Some(k) => Some(k + 1)
  }

  /** `InstrumentPresets.get_by_name` over the table `all`. */
  method GetByName(all: seq<Instrument>, name: string) returns (r: Result<Instrument>)
    ensures IndexByName(all, name).Some? ==> r == Success(all[IndexByName(all, name).value])
    ensures IndexByName(all, name).None? ==> r == Failure(ValueError("Unknown instrument: " + name))
  {
    for i := 0 to |all|
      invariant forall j :: 0 <= j < i ==> Lower(all[j].name) != Lower(name)
    {
      if Lower(all[i].name) == Lower(name) {
        FirstMatch(all, name, i);
        return Success(all[i]);
      }
    }
    return Failure(ValueError("Unknown instrument: " + name));
  }

  lemma FirstMatch(all: seq<Instrument>, name: string, i: nat)
    requires i < |all| && Lower(all[i].name) == Lower(name)
    requires forall j :: 0 <= j < i ==> Lower(all[j].name) != Lower(name)
    ensures IndexByName(all, name) == Some(i)
  {
  }

  /** `InstrumentPresets.get_names` over the table `all`. */
  function GetNames(all: seq<Instrument>): (r: seq<string>)
    ensures |r| == |all|
    ensures forall i :: 0 <= i < |all| ==> r[i] == all[i].name
  {
    seq(|all|, i requires 0 <= i < |all| => all[i].name)
  }

  /** Every listed name finds an instrument, the first one with that name
      ignoring case (so itself unless an earlier one shares it); and the
      lookup does not depend on case. */
  lemma ListedNamesResolve(all: seq<Instrument>, name: string)
    ensures forall i :: 0 <= i < |all| ==>
      IndexByName(all, GetNames(all)[i]).Some? && IndexByName(all, GetNames(all)[i]).value <= i
    ensures IndexByName(all, Lower(name)) == IndexByName(all, name)
  {
    LowerIdempotent(name);
    forall i | 0 <= i < |all|
      ensures IndexByName(all, GetNames(all)[i]).Some? && IndexByName(all, GetNames(all)[i]).value <= i
    {
      var r := IndexByName(all, all[i].name);
      assert r.Some?;
    }
  }
}
