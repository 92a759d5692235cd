/** The note recorder and sequencer (playback.c): two parallel 24-slot buffers of note
    and time values, recording from key presses and beat-locked playback from the tail. */
module Playback {
  import opened Bytes
  import opened Notes
  import opened Serial
  import opened Press

  const NoteBufSize: int := 24

  /** The value that ends a song's note array. */
  const Sentinel: u8 := 111

  /** The three values of `tuneWait`. */
  const Play: u8 := 0
  const WaitForBeat: u8 := 1
  const Idle: u8 := 255

  /** The demo tune ("twinkle twinkle"), 255 being a rest, and its times: the C initialiser
      `{50}` sets only the first element, so every other time is 0. */
  const TwinkleSong: seq<u8> := [0, 0, 4, 4, 5, 5, 4, 255, 3, 3, 2, 2, 1, 1, 0, 255, 111]
  const TwinkleTime: seq<u8> := [50, 0, 0, 0, 0, 0, 0, 0, 0, 0, 0, 0, 0, 0, 0, 0, 0]

  /** One recorded note with its time value. */
  datatype Entry = Entry(note: u8, time: u8)

  /** The pairs (note_buffer[i], time_buffer[i]) for the filled slots. */
  function Zip(ns: seq<u8>, ts: seq<u8>): (es: seq<Entry>)
    requires |ns| == |ts|
    ensures |es| == |ns|
    ensures forall i :: 0 <= i < |ns| ==> es[i] == Entry(ns[i], ts[i])
  {
    seq(|ns|, i requires 0 <= i < |ns| => Entry(ns[i], ts[i]))
  }

  /** The first k pairs are the pairs of the first k values. */
  lemma ZipPrefix(ns: seq<u8>, ts: seq<u8>, k: nat)
    requires |ns| == |ts| && k <= |ns|
    ensures Zip(ns[..k], ts[..k]) == Zip(ns, ts)[..k]
  {
  }

  /** Extending both prefixes by one value adds one pair. */
  lemma ZipSnoc(ns: seq<u8>, ts: seq<u8>, i: nat)
    requires i < |ns| && i < |ts|
    ensures Zip(ns[..i + 1], ts[..i + 1]) == Zip(ns[..i], ts[..i]) + [Entry(ns[i], ts[i])]
  {
  }

  /** Position of the first sentinel in a song's note array. */
  ghost function SentinelIndex(notes: seq<u8>): (k: nat)
    requires Sentinel in notes
    ensures k < |notes| && notes[k] == Sentinel
    ensures forall j :: 0 <= j < k ==> notes[j] != Sentinel
  {
    FirstSentinelExists(notes);
    var k :| 0 <= k < |notes| && notes[k] == Sentinel && forall j :: 0 <= j < k ==> notes[j] != Sentinel;
    k
  }

  lemma {:induction false} FirstSentinelExists(notes: seq<u8>)
    requires Sentinel in notes
    ensures exists k :: 0 <= k < |notes| && notes[k] == Sentinel && forall j :: 0 <= j < k ==> notes[j] != Sentinel
  {
    if notes[0] == Sentinel {
      assert 0 < |notes| && notes[0] == Sentinel;
    } else {
      assert Sentinel in notes[1..] by {
        var i :| 0 <= i < |notes| && notes[i] == Sentinel;
        assert notes[1..][i - 1] == Sentinel;
      }
      FirstSentinelExists(notes[1..]);
      var k :| 0 <= k < |notes[1..]| && notes[1..][k] == Sentinel && forall j :: 0 <= j < k ==> notes[1..][j] != Sentinel;
      assert forall j :: 0 <= j < k + 1 ==> notes[j] != Sentinel by {
        forall j | 0 <= j < k + 1 ensures notes[j] != Sentinel {
          if j > 0 { assert notes[j] == notes[1..][j - 1]; }
        }
      }
    }
  }

  /** The entries a song adds: every pair before the first sentinel. */
  ghost function SongEntries(notes: seq<u8>, times: seq<u8>): seq<Entry>
    requires Sentinel in notes && SentinelIndex(notes) <= |times|
  {
    var k := SentinelIndex(notes);
    Zip(notes[..k], times[..k])
  }

  /** The demo tune adds 16 entries: the notes C C G G A A G, a rest, F F E E D D C, a rest,
      with the time 50 on the first and 0 on every other. */
  lemma DemoTuneEntries()
    ensures var es := SongEntries(TwinkleSong, TwinkleTime);
            && |es| == 16
            && es[0] == Entry(0, 50)
            && (forall i :: 1 <= i < 16 ==> es[i] == Entry(TwinkleSong[i], 0))
  {
    DemoSentinel();
    assert |TwinkleTime| == 17 && TwinkleTime[0] == 50;
    assert forall i :: 1 <= i < 17 ==> TwinkleTime[i] == 0;
    var es := SongEntries(TwinkleSong, TwinkleTime);
    var ns, ts := TwinkleSong[..16], TwinkleTime[..16];
    assert es == Zip(ns, ts);
    forall i | 1 <= i < 16
      ensures es[i] == Entry(TwinkleSong[i], 0)
    {
      assert ns[i] == TwinkleSong[i] && ts[i] == TwinkleTime[i];
    }
  }

  /** The demo tune's sentinel is its seventeenth value. */
  lemma DemoSentinel()
    ensures SentinelIndex(TwinkleSong) == 16
  {
    assert forall j :: 0 <= j < 16 ==> TwinkleSong[j] != Sentinel;
    SentinelIndexIs(TwinkleSong, 16);
  }

  lemma SentinelIndexIs(notes: seq<u8>, k: nat)
    requires k < |notes| && notes[k] == Sentinel
    requires forall j :: 0 <= j < k ==> notes[j] != Sentinel
    ensures SentinelIndex(notes) == k
  {
    var i := SentinelIndex(notes);
    assert !(i < k) && !(k < i);
  }

  // ---------------------------------------------------------------------------------
  // The playback state machine, as a function of the sequencer's state.

  /** What `playbackStep` reads and writes of the sequencer. */
  datatype Player = Player(entries: seq<Entry>, counter: u8, space: u8, tuneWait: u8,
                           recording: u8, recTime: u16, recBeatset: u16,
                           recWaveform: u8, recOctave: u8, tmpOctave: u8, tmpWaveform: u8)

  /** The state after one step and the entry it played, if any. */
  datatype Step = Step(next: Player, played: Option<Entry>)

  /** One `playbackStep`: while recording, only count ticks; release a waiting playback on
      the recorded beat; while playing, count ticks and, when the count reaches the note
      space, play the last entry, then wait (t*10) mod 256 ticks for the next one, or, if it
      was the last, go idle. */
  function PlaybackStepSpec(p: Player, beatCount: int): (r: Step)
    ensures r.played.None? ==> r.next.entries == p.entries
    ensures r.played.Some? ==>
      && |p.entries| > 0 && r.played.value == p.entries[|p.entries| - 1]
      && r.next.entries == p.entries[..|p.entries| - 1]
      && (r.next.tuneWait == Idle <==> |p.entries| == 1)
    ensures r.next.(entries := p.entries, counter := p.counter, space := p.space, tuneWait := p.tuneWait,
                    recTime := p.recTime) == p
  {
    if p.recording == 1 && p.tuneWait == Idle then
      Step(p.(recTime := Inc16(p.recTime)), None)
    else
      DueStep(p.(tuneWait := if p.tuneWait == WaitForBeat && beatCount == p.recBeatset then Play else p.tuneWait))
  }

  /** Part 2 of a step: while playing, count the tick, and when the count reaches the note
      space take the newest entry. */
  function DueStep(p: Player): (r: Step)
    ensures r.played.None? ==> r.next.entries == p.entries
    ensures r.played.Some? ==>
      && p.tuneWait == Play && |p.entries| > 0 && r.played.value == p.entries[|p.entries| - 1]
      && r.next.entries == p.entries[..|p.entries| - 1]
      && (r.next.tuneWait == Idle <==> |p.entries| == 1)
    ensures r.next.(entries := p.entries, counter := p.counter, space := p.space, tuneWait := p.tuneWait) == p
  {
    if |p.entries| > 0 && p.tuneWait == Play then
      if p.counter == p.space then
        Consumed(p.(counter := Inc8(p.counter)))
      else
        Step(p.(counter := Inc8(p.counter)), None)
    else
      Step(p, None)
  }

  /** Playing the newest entry: it leaves the buffer; with entries left the counter restarts
      and the next space is the played entry's time times 10, truncated to a byte; after the
      last one playback is over. */
  function Consumed(p: Player): (r: Step)
    requires |p.entries| > 0
    ensures r.played == Some(p.entries[|p.entries| - 1]) && r.next.entries == p.entries[..|p.entries| - 1]
    ensures r.next.tuneWait == Idle <==> (|p.entries| == 1 || p.tuneWait == Idle)
  {
    var n := |p.entries|;
    var e := p.entries[n - 1];
    if n - 1 > 0 then
      Step(p.(entries := p.entries[..n - 1], counter := 0, space := (e.time as int * 10) % 256), Some(e))
    else
      Step(p.(entries := [], tuneWait := Idle), Some(e))
  }

  /** The synthesiser after a step: a played entry goes through `pressNote`, and after the
      last one the saved octave and waveform return (the note already started keeps the
      playback's). */
  function PlayedSynth(s: SynthState, st: Step): SynthState
    requires s.triWaveSteps > 0
  {
    match st.played
    case None => s
    case Some(e) =>
      var t := AfterPress(s, e.note);
      if st.next.tuneWait == Idle then t.(octave := st.next.tmpOctave, waveform := st.next.tmpWaveform) else t
  }

  /** The serial line after a step: a played entry's name is queued, in the octave in force. */
  function PlayedLine(l: LineState, st: Step, octave: u8, beatCount: int): LineState
    requires |l.queue| <= Capacity && l.noteLines < NotesPerLine
  {
    match st.played
    case None => l
    case Some(e) => AfterNote(l, e.note, octave, beatCount)
  }

  /** The last note of a playback sounds in the playback's octave and waveform, although the
      saved ones are restored in the same step. */
  lemma LastNoteKeepsPlaybackPitch(s: SynthState, st: Step)
    requires s.triWaveSteps > 0 && st.played.Some? && st.played.value.note <= 7 && st.next.tuneWait == Idle
    ensures var r := PlayedSynth(s, st);
            && r.timerControl == TimerRun && r.note == st.played.value.note
            && r.compare == Period(st.played.value.note, s.waveform, s.triWaveSteps, s.octave).value
            && r.octave == st.next.tmpOctave && r.waveform == st.next.tmpWaveform
  {
  }

  /** A played rest (a note above 7, such as the demo tune's 255) silences the synthesiser. */
  lemma PlayedRestSilences(s: SynthState, st: Step)
    requires s.triWaveSteps > 0 && st.played.Some? && st.played.value.note > 7
    ensures PlayedSynth(s, st).timerControl == 0 && PlayedSynth(s, st).amplitude == 0.0
  {
  }

  /** `playBuffer` on the sequencer: wait for the recorded beat with the first entry's time as the
      first note space, and save the synthesiser's octave and waveform. */
  function ArmedPlayer(p: Player, s: SynthState): Player
    requires |p.entries| > 0
  {
    p.(counter := 0, space := p.entries[0].time, tuneWait := WaitForBeat, tmpOctave := s.octave,
       tmpWaveform := s.waveform)
  }

  /** `playBuffer` on the synthesiser: the recorded octave and waveform take effect. */
  function ArmedSynth(s: SynthState, p: Player): SynthState
  {
    s.(octave := p.recOctave, waveform := p.recWaveform)
  }

  /** `demoTuneStart` on the sequencer: unless recording, beat 0, lower octave, the current
      waveform, the demo tune appended and playback armed. */
  ghost function DemoPlayer(p: Player, s: SynthState): Player
    requires |p.entries| <= NoteBufSize
  {
    if p.recording != 0 then p
    else
      ArmedPlayer(p.(recBeatset := 0, recWaveform := s.waveform, recOctave := 0,
                     entries := Fill(p.entries, SongEntries(TwinkleSong, TwinkleTime), NoteBufSize)), s)
  }

  /** `demoTuneStart` on the synthesiser: unless recording, the lower octave. */
  function DemoSynth(s: SynthState, p: Player): SynthState
  {
    if p.recording != 0 then s else s.(octave := 0)
  }

  /** `tuneWait` only ever holds 0, 1 or 255. */
  lemma TuneWaitStaysInDomain(p: Player, beatCount: int)
    requires p.tuneWait in {Play, WaitForBeat, Idle}
    ensures PlaybackStepSpec(p, beatCount).next.tuneWait in {Play, WaitForBeat, Idle}
  {
  }

  /** While recording (and not playing) a step only counts the tick. */
  lemma RecordingOnlyCounts(p: Player, beatCount: int)
    requires p.recording == 1 && p.tuneWait == Idle
    ensures PlaybackStepSpec(p, beatCount) == Step(p.(recTime := Inc16(p.recTime)), None)
  {
  }

  /** A waiting playback leaves the waiting state on exactly the tick whose beat count
      equals the one recorded at the start of recording. */
  lemma LeavesWaitOnRecordedBeat(p: Player, beatCount: int)
    requires p.tuneWait == WaitForBeat
    ensures var s := PlaybackStepSpec(p, beatCount);
            s.next.tuneWait != WaitForBeat <==> beatCount == p.recBeatset
    ensures beatCount != p.recBeatset ==> PlaybackStepSpec(p, beatCount) == Step(p, None)
  {
  }

  /** When the tick count reaches the note space, the last entry is played and removed:
      one entry fewer, the rest in place. */
  lemma PlaysTheLastEntry(p: Player, beatCount: int)
    requires p.tuneWait == Play && |p.entries| > 0 && p.counter == p.space
    ensures var s := PlaybackStepSpec(p, beatCount);
            var n := |p.entries|;
            && s.played == Some(p.entries[n - 1])
            && s.next.entries == p.entries[..n - 1]
            && (n > 1 ==> s.next.counter == 0 && s.next.space == (p.entries[n - 1].time as int * 10) % 256
                          && s.next.tuneWait == Play)
            && (n == 1 ==> s.next.tuneWait == Idle)
  {
  }

  /** The state after a run of ticks (beats[i] is the beat count on the i-th tick). */
  function After(p: Player, beats: seq<int>): Player
    decreases |beats|
  {
    if beats == [] then p else After(PlaybackStepSpec(p, beats[0]).next, beats[1..])
  }

  /** The notes played during a run of ticks, in order. */
  function Played(p: Player, beats: seq<int>): seq<u8>
    decreases |beats|
  {
    if beats == [] then []
    else
      var s := PlaybackStepSpec(p, beats[0]);
      (if s.played.Some? then [s.played.value.note] else []) + Played(s.next, beats[1..])
  }

  /** The notes of the entries, last first. */
  function NotesLastFirst(es: seq<Entry>): (ns: seq<u8>)
    ensures |ns| == |es|
    ensures forall i :: 0 <= i < |es| ==> ns[i] == es[|es| - 1 - i].note
  {
    if es == [] then [] else [es[|es| - 1].note] + NotesLastFirst(es[..|es| - 1])
  }

  /** Ticks needed to play out the entries from a tick count c and note space s: s - c + 1
      ticks to the first note, then (t*10) mod 256 + 1 more after each note of time t
      that has a successor. */
  function Duration(es: seq<Entry>, c: int, s: int): (d: nat)
    requires 0 <= c <= s && |es| > 0
    decreases |es|
  {
    var n := |es|;
    (s - c + 1) + (if n > 1 then Duration(es[..n - 1], 0, (es[n - 1].time as int * 10) % 256) else 0)
  }

  lemma {:induction false} RunSplit(p: Player, b1: seq<int>, b2: seq<int>)
    ensures After(p, b1 + b2) == After(After(p, b1), b2)
    ensures Played(p, b1 + b2) == Played(p, b1) + Played(After(p, b1), b2)
    decreases |b1|
  {
    if b1 == [] {
      assert b1 + b2 == b2;
    } else {
      assert (b1 + b2)[1..] == b1[1..] + b2;
      RunSplit(PlaybackStepSpec(p, b1[0]).next, b1[1..], b2);
    }
  }

  /** While the tick count is below the note space, ticks only count. */
  lemma {:induction false} CountsUpToSpace(p: Player, beats: seq<int>)
    requires p.tuneWait == Play && |p.entries| > 0 && p.counter <= p.space
    requires |beats| == p.space - p.counter
    ensures After(p, beats) == p.(counter := p.space)
    ensures Played(p, beats) == []
    decreases |beats|
  {
    if beats != [] {
      var q := PlaybackStepSpec(p, beats[0]).next;
      assert q == p.(counter := p.counter + 1);
      CountsUpToSpace(q, beats[1..]);
    }
  }

  /** Beat-locked playback plays back every entry, last recorded first, and then goes idle;
      this takes exactly `Duration` ticks, whatever the beat counter does meanwhile. */
  lemma {:induction false} PlaysOutInReverse(p: Player, beats: seq<int>)
    requires p.tuneWait == Play && |p.entries| > 0 && p.counter <= p.space
    requires |beats| == Duration(p.entries, p.counter, p.space)
    ensures Played(p, beats) == NotesLastFirst(p.entries)
    ensures After(p, beats).tuneWait == Idle && After(p, beats).entries == []
    decreases |p.entries|
  {
    var n := |p.entries|;
    var w := p.space - p.counter;
    var b1, b2, b3 := beats[..w], beats[w..w + 1], beats[w + 1..];
    assert beats == b1 + (b2 + b3);
    RunSplit(p, b1, b2 + b3);
    CountsUpToSpace(p, b1);
    var p1 := p.(counter := p.space);
    RunSplit(p1, b2, b3);
    var s := PlaybackStepSpec(p1, b2[0]);
    assert After(p1, b2) == s.next && Played(p1, b2) == [p.entries[n - 1].note];
    if n > 1 {
      PlaysOutInReverse(s.next, b3);
      assert NotesLastFirst(p.entries) == [p.entries[n - 1].note] + NotesLastFirst(p.entries[..n - 1]);
    } else {
      assert b3 == [];
    }
  }

  // ---------------------------------------------------------------------------------
  // The globals of playback.c.

  class Sequencer {
    var noteBuffer: array<u8>
    var timeBuffer: array<u8>
    var count: u8
    var playbackCounter: u8
    var noteSpace: u8
    var tuneWait: u8
    var recWaveform: u8
    var recTimecounter: u16
    var recBeatset: u16
    var recording: u8
    var recOctave: u8
    var tmpOctave: u8
    var tmpWaveform: u8

    ghost predicate Valid()
      reads this
    {
      && noteBuffer.Length == NoteBufSize && timeBuffer.Length == NoteBufSize
      && noteBuffer != timeBuffer
      && count <= NoteBufSize
      && tuneWait in {Play, WaitForBeat, Idle}
      && recording <= 1 && recOctave <= 1 && tmpOctave <= 1
    }

    /** The filled slots of the two buffers, oldest first. */
    ghost function Entries(): seq<Entry>
      reads this, noteBuffer, timeBuffer
      requires Valid()
    {
      Zip(noteBuffer[..count], timeBuffer[..count])
    }

    ghost function State(): Player
      reads this, noteBuffer, timeBuffer
      requires Valid()
    {
      Player(Entries(), playbackCounter, noteSpace, tuneWait, recording, recTimecounter, recBeatset,
             recWaveform, recOctave, tmpOctave, tmpWaveform)
    }

    /** Neither playing nor holding anything to play: the state from reset. */
    predicate Dormant()
      reads this
    {
      tuneWait == Idle && count == 0
    }

    /** The static initialisers: note_buffer = {111}, everything else zero, tuneWait idle. */
    constructor ()
      ensures Valid() && fresh(noteBuffer) && fresh(timeBuffer)
      ensures noteBuffer[..] == [Sentinel] + seq(NoteBufSize - 1, _ => 0)
      ensures timeBuffer[..] == seq(NoteBufSize, _ => 0)
      ensures count == 0 && playbackCounter == 0 && noteSpace == 0 && tuneWait == Idle
      ensures recWaveform == 0 && recTimecounter == 0 && recBeatset == 0 && recording == 0
      ensures recOctave == 0 && tmpOctave == 0 && tmpWaveform == 0
      ensures Dormant()
    {
      noteBuffer := new u8[NoteBufSize](i => if i == 0 then Sentinel else 0);
      timeBuffer := new u8[NoteBufSize](_ => 0);
      count, playbackCounter, noteSpace, tuneWait := 0, 0, 0, Idle;
      recWaveform, recTimecounter, recBeatset, recording := 0, 0, 0, 0;
      recOctave, tmpOctave, tmpWaveform := 0, 0, 0;
    }

    /** `buffer_note`: store (n, t) in the next free slot; with all 24 slots full, change nothing. */
    method BufferNote(n: u8, t: u8)
      requires Valid()
      modifies this`count, noteBuffer, timeBuffer
      ensures Valid()
      ensures old(count) < NoteBufSize ==>
        && noteBuffer[..] == old(noteBuffer[..])[old(count) := n]
        && timeBuffer[..] == old(timeBuffer[..])[old(count) := t]
        && count == old(count) + 1
      ensures old(count) == NoteBufSize ==>
        noteBuffer[..] == old(noteBuffer[..]) && timeBuffer[..] == old(timeBuffer[..]) && count == old(count)
      ensures Entries() == Fill(old(Entries()), [Entry(n, t)], NoteBufSize)
    {
      if count < NoteBufSize {
        noteBuffer[count] := n;
        timeBuffer[count] := t;
        count := count + 1;
        assert noteBuffer[..count] == old(noteBuffer[..count]) + [n];
        assert timeBuffer[..count] == old(timeBuffer[..count]) + [t];
      }
    }

    /** `playBuffer`: arm playback to start on the recorded beat, with the recorded octave and
        waveform; the current ones are kept for when playback ends. */
    method PlayBuffer(synth: Synth)
      requires Valid() && synth.Valid()
      modifies this`playbackCounter, this`noteSpace, this`tuneWait, this`tmpOctave, this`tmpWaveform
      modifies synth`octave, synth`waveform
      ensures Valid() && synth.Valid()
      ensures playbackCounter == 0 && noteSpace == timeBuffer[0] && tuneWait == WaitForBeat
      ensures tmpOctave == old(synth.octave) && tmpWaveform == old(synth.waveform)
      ensures synth.octave == recOctave && synth.waveform == recWaveform
      ensures count > 0 ==> State() == ArmedPlayer(old(State()), old(synth.State()))
      ensures synth.State() == ArmedSynth(old(synth.State()), old(State()))
    {
      ghost var entries := Entries();
      playbackCounter := 0;
      noteSpace := timeBuffer[0];
      tuneWait := WaitForBeat;
      tmpOctave := synth.octave;
      synth.octave := recOctave;
      tmpWaveform := synth.waveform;
      synth.waveform := recWaveform;
      assert Entries() == entries;
    }

    /** The loop of `buffer_song`: append every (note, time) pair before the sentinel. */
    method BufferUntilSentinel(notes: seq<u8>, times: seq<u8>)
      requires Valid()
      requires Sentinel in notes && SentinelIndex(notes) <= |times|
      modifies this`count, noteBuffer, timeBuffer
      ensures Valid()
      ensures Entries() == Fill(old(Entries()), SongEntries(notes, times), NoteBufSize)
    {
      ghost var e0 := Entries();
      ghost var k := SentinelIndex(notes);
      var i := 0;
      while notes[i] != Sentinel
        invariant 0 <= i <= k
        invariant Valid()
        invariant Entries() == Fill(e0, Zip(notes[..i], times[..i]), NoteBufSize)
        decreases k - i
      {
        BufferNote(notes[i], times[i]);
        FillSnoc(e0, Zip(notes[..i], times[..i]), Entry(notes[i], times[i]), NoteBufSize);
        ZipSnoc(notes, times, i);
        i := i + 1;
      }
    }

    /** `buffer_song`: append the song, then `playBuffer`. */
    method BufferSong(notes: seq<u8>, times: seq<u8>, synth: Synth)
      requires Valid() && synth.Valid()
      requires Sentinel in notes && SentinelIndex(notes) <= |times|
      modifies this`count, noteBuffer, timeBuffer
      modifies this`playbackCounter, this`noteSpace, this`tuneWait, this`tmpOctave, this`tmpWaveform
      modifies synth`octave, synth`waveform
      ensures Valid() && synth.Valid()
      ensures Entries() == Fill(old(Entries()), SongEntries(notes, times), NoteBufSize)
      ensures playbackCounter == 0 && tuneWait == WaitForBeat
      ensures count > 0 ==> noteSpace == Entries()[0].time
      ensures tmpOctave == old(synth.octave) && tmpWaveform == old(synth.waveform)
      ensures synth.octave == recOctave && synth.waveform == recWaveform
    {
      BufferUntilSentinel(notes, times);
      assert count > 0 ==> timeBuffer[0] == Entries()[0].time;
      PlayBuffer(synth);
    }

    /** `record_start`: empty the buffer (the undefined `notebuffer_clear` is taken to reset the
        count), remember waveform, beat and octave, and start recording. */
    method RecordStart(waveform: u8, octave: u8, beatCount: int)
      requires Valid() && octave <= 1
      modifies this`count, this`recWaveform, this`recBeatset, this`recOctave, this`recording
      ensures Valid()
      ensures count == 0 && Entries() == [] && recording == 1
      ensures recWaveform == waveform && recBeatset == beatCount % 65536 && recOctave == octave
      ensures State() == old(State()).(entries := [], recWaveform := waveform, recBeatset := beatCount % 65536,
                                       recOctave := octave, recording := 1)
    {
      count := 0;
      recWaveform := waveform;
      recBeatset := beatCount % 65536;
      recOctave := octave;
      recording := 1;
    }

    /** `record_stop`. */
    method RecordStop()
      requires Valid()
      modifies this`recording
      ensures Valid() && recording == 0
      ensures State() == old(State()).(recording := 0)
    {
      recording := 0;
    }

    /** `record_note`: append, and stop recording once the buffer is full. */
    method RecordNote(n: u8, t: u8)
      requires Valid()
      modifies this`count, noteBuffer, timeBuffer, this`recording
      ensures Valid()
      ensures Entries() == Fill(old(Entries()), [Entry(n, t)], NoteBufSize)
      ensures recording == (if count == NoteBufSize then 0 else old(recording))
    {
      BufferNote(n, t);
      if count == NoteBufSize {
        RecordStop();
      }
    }

    /** `demoTuneStart`: unless recording, set the playback beat to 0, the octave to the lower
        one and keep the waveform, then append the demo tune and start playback. */
    method DemoTuneStart(synth: Synth)
      requires Valid() && synth.Valid()
      modifies this`count, noteBuffer, timeBuffer
      modifies this`playbackCounter, this`noteSpace, this`tuneWait, this`tmpOctave, this`tmpWaveform
      modifies this`recBeatset, this`recWaveform, this`recOctave
      modifies synth`octave, synth`waveform
      ensures Valid() && synth.Valid()
      ensures old(recording) != 0 ==>
        && unchanged(this) && unchanged(noteBuffer) && unchanged(timeBuffer) && unchanged(synth)
      ensures old(recording) == 0 ==>
        && recBeatset == 0 && recOctave == 0 && recWaveform == old(synth.waveform)
        && Entries() == Fill(old(Entries()), SongEntries(TwinkleSong, TwinkleTime), NoteBufSize)
        && playbackCounter == 0 && tuneWait == WaitForBeat && noteSpace == Entries()[0].time
        && tmpOctave == old(synth.octave) && tmpWaveform == old(synth.waveform)
        && synth.octave == 0 && synth.waveform == old(synth.waveform)
      ensures State() == DemoPlayer(old(State()), old(synth.State()))
      ensures synth.State() == DemoSynth(old(synth.State()), old(State()))
    {
      if recording == 0 {
        recBeatset := 0;
        recWaveform := synth.waveform;
        recOctave := 0;
        BufferSong(TwinkleSong, TwinkleTime, synth);
      }
    }

    /** Take the newest entry off the buffers. */
    method TakeLast() returns (e: Entry)
      requires Valid() && count > 0
      modifies this`count
      ensures Valid() && count == old(count) - 1
      ensures e == old(State()).entries[count] && State() == old(State()).(entries := old(State()).entries[..count])
    {
      e := Entry(noteBuffer[count - 1], timeBuffer[count - 1]);
      count := count - 1;
      ZipPrefix(noteBuffer[..], timeBuffer[..], count);
      ZipPrefix(noteBuffer[..], timeBuffer[..], count + 1);
    }

    /** After a played entry of time t: with entries left, wait (t*10) mod 256 more ticks;
        otherwise end playback and restore the saved octave and waveform. */
    method ScheduleNext(t: u8, synth: Synth)
      requires Valid() && synth.Valid()
      modifies this`playbackCounter, this`noteSpace, this`tuneWait, synth`octave, synth`waveform
      ensures Valid() && synth.Valid()
      ensures count > 0 ==>
        State() == old(State()).(counter := 0, space := (t as int * 10) % 256) && synth.State() == old(synth.State())
      ensures count == 0 ==>
        && State() == old(State()).(tuneWait := Idle)
        && synth.State() == old(synth.State()).(octave := tmpOctave, waveform := tmpWaveform)
    {
      if count > 0 {
        noteSpace := (t as int * 10) % 256;
        playbackCounter := 0;
      } else {
        tuneWait := Idle;
        synth.octave := tmpOctave;
        synth.waveform := tmpWaveform;
      }
    }

    /** The consuming half of `playbackStep` (the counter has just matched the note space):
        take the newest entry, play it through `pressNote`, then either schedule the next
        entry or end playback, restoring the saved octave and waveform. */
    method PlayLast(synth: Synth, port: SerialPort, beatCount: int)
      requires Valid() && synth.Valid() && port.Valid() && count > 0 && tuneWait == Play
      modifies this`count, this`playbackCounter, this`noteSpace, this`tuneWait
      modifies synth, port, port.buffer
      ensures Valid() && synth.Valid() && port.Valid() && port.buffer == old(port.buffer)
      ensures State() == Consumed(old(State())).next
      ensures synth.State() == PlayedSynth(old(synth.State()), Consumed(old(State())))
      ensures port.State() == PlayedLine(old(port.State()), Consumed(old(State())), old(synth.octave), beatCount)
    {
      var e := TakeLast();
      ghost var p1 := State();
      PressNote(e.note, synth, port, beatCount);
      assert State() == p1;
      ScheduleNext(e.time, synth);
    }

    /** The due branch of `playbackStep`: the counter has reached the note space. */
    method PlayDueEntry(synth: Synth, port: SerialPort, beatCount: int)
      requires Valid() && synth.Valid() && port.Valid()
      requires count > 0 && tuneWait == Play && playbackCounter == noteSpace
      modifies this`tuneWait, this`count, this`playbackCounter, this`noteSpace
      modifies synth, port, port.buffer
      ensures Valid() && synth.Valid() && port.Valid() && port.buffer == old(port.buffer)
      ensures State() == DueStep(old(State())).next
      ensures synth.State() == PlayedSynth(old(synth.State()), DueStep(old(State())))
      ensures port.State() == PlayedLine(old(port.State()), DueStep(old(State())), old(synth.octave), beatCount)
    {
      playbackCounter := Inc8(playbackCounter);
      PlayLast(synth, port, beatCount);
    }

    /** Part 2 of `playbackStep`: when playing and the tick count reaches the note space,
        play the newest entry (see `PlayLast`). */
    method PlayDue(synth: Synth, port: SerialPort, beatCount: int)
      requires Valid() && synth.Valid() && port.Valid()
      modifies this`tuneWait, this`count, this`playbackCounter, this`noteSpace
      modifies synth, port, port.buffer
      ensures Valid() && synth.Valid() && port.Valid() && port.buffer == old(port.buffer)
      ensures State() == DueStep(old(State())).next
      ensures synth.State() == PlayedSynth(old(synth.State()), DueStep(old(State())))
      ensures port.State() == PlayedLine(old(port.State()), DueStep(old(State())), old(synth.octave), beatCount)
      ensures DueStep(old(State())).played.None? ==> unchanged(synth) && unchanged(port) && unchanged(port.buffer)
    {
      ghost var p0 := State();
      if count > 0 && tuneWait == Play {
        if playbackCounter == noteSpace {
          PlayDueEntry(synth, port, beatCount);
        } else {
          playbackCounter := Inc8(playbackCounter);
          assert DueStep(p0).played.None?;
        }
      } else {
        assert DueStep(p0) == Step(p0, None);
      }
    }

    /** `playbackStep`, run on every 1 ms tick. A played note goes through `pressNote` (in the
        octave in force while playing); after the last one the saved octave and waveform return. */
    method PlaybackStep(synth: Synth, port: SerialPort, beatCount: int)
      requires Valid() && synth.Valid() && port.Valid()
      modifies this`recTimecounter, this`tuneWait, this`count, this`playbackCounter, this`noteSpace
      modifies synth, port, port.buffer
      ensures Valid() && synth.Valid() && port.Valid() && port.buffer == old(port.buffer)
      ensures State() == PlaybackStepSpec(old(State()), beatCount).next
      ensures synth.State() == PlayedSynth(old(synth.State()), PlaybackStepSpec(old(State()), beatCount))
      ensures port.State() == PlayedLine(old(port.State()), PlaybackStepSpec(old(State()), beatCount),
                                         old(synth.octave), beatCount)
      ensures PlaybackStepSpec(old(State()), beatCount).played.None? ==>
        unchanged(synth) && unchanged(port) && unchanged(port.buffer)
      ensures old(Dormant()) ==> Dormant()
    {
      if recording == 1 && tuneWait == Idle {
        recTimecounter := Inc16(recTimecounter);
        return;
      }
      if tuneWait == WaitForBeat && beatCount == recBeatset {
        tuneWait := Play;
      }
      PlayDue(synth, port, beatCount);
    }

  }
}
