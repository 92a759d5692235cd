/** The 1 ms tick (timer2.c): sample the eight buttons, turn a change into at most one note
    event, refresh one digit of the display, advance the beat and step the sequencer. */
module Timer2 {
  import opened Bytes
  import opened Notes
  import opened Serial
  import opened Segment
  import opened Led
  import opened Playback
  import opened Press

  /** The mask of button i (`1<<i`). */
  function Bit(i: nat): (b: bv8)
    requires i < 8
  {
    (1 as bv8) << i
  }

  /** Button i is down in the sample m. */
  predicate Held(m: bv8, i: nat)
    requires i < 8
  {
    m & Bit(i) != 0
  }

  /** A sample with no button down is zero. */
  lemma AllClearIsZero(m: bv8)
    requires forall k :: 0 <= k < 8 ==> !Held(m, k)
    ensures m == 0
  {
    assert !Held(m, 0) && !Held(m, 1) && !Held(m, 2) && !Held(m, 3);
    assert !Held(m, 4) && !Held(m, 5) && !Held(m, 6) && !Held(m, 7);
  }

  /** The lowest button at or above j that is down. */
  function LowestFrom(m: bv8, j: nat): (i: nat)
    requires m != 0 && j < 8
    requires forall k :: 0 <= k < j ==> !Held(m, k)
    ensures j <= i < 8 && Held(m, i)
    ensures forall k :: 0 <= k < i ==> !Held(m, k)
    decreases 8 - j
  {
    if Held(m, j) then j
    else
      AllClearBelow(m, j);
      LowestFrom(m, j + 1)
  }

  lemma AllClearBelow(m: bv8, j: nat)
    requires m != 0 && j < 8 && !Held(m, j)
    requires forall k :: 0 <= k < j ==> !Held(m, k)
    ensures j + 1 < 8
  {
    if j == 7 {
      AllClearIsZero(m);
    }
  }

  /** The lowest button that is down in a nonzero sample: where the source's `for` loop stops. */
  function LowestBit(m: bv8): (i: u8)
    requires m != 0
    ensures i < 8 && Held(m, i as nat)
    ensures forall k :: 0 <= k < i as nat ==> !Held(m, k)
  {
    LowestFrom(m, 0) as u8
  }

  /** The `for (i=0; i<=7; i++) if (mask & (1<<i)) { ...; break; }` scan. */
  method ScanLowestBit(m: bv8) returns (found: bool, i: u8)
    ensures found <==> m != 0
    ensures found ==> i == LowestBit(m)
  {
    i := 0;
    while i <= 7
      invariant 0 <= i <= 8
      invariant forall k :: 0 <= k < i as nat ==> !Held(m, k)
    {
      if m & Bit(i as nat) != 0 {
        found := true;
        LowestUnique(m, i);
        return;
      }
      i := i + 1;
    }
    found := false;
    AllClearIsZero(m);
  }

  /** Only one button can be the lowest one down. */
  lemma LowestUnique(m: bv8, i: u8)
    requires i < 8 && Held(m, i as nat) && m != 0
    requires forall k :: 0 <= k < i as nat ==> !Held(m, k)
    ensures i == LowestBit(m)
  {
  }

  /** The outcome of comparing two successive samples. */
  datatype Edge = NoEdge | Silence | Pressed(n: u8)

  /** The button branch of the tick as written: no event when the sample is unchanged;
      silence when every button is up; when the sample fell (as a number) the lowest
      button still down; when it rose the lowest button that changed, in either direction. */
  function ResolveEdge(prev: bv8, cur: bv8): (e: Edge)
    ensures e.Pressed? ==> e.n < 8
  {
    if cur == prev then NoEdge
    else if cur == 0 then Silence
    else if prev > cur then Pressed(LowestBit(cur))
    else Pressed(LowestBit(cur ^ prev))
  }

  /** The event the tick acts on: buttons count only while a playback is running. */
  function ButtonEvent(prev: bv8, cur: bv8, tuneWait: u8): (e: Edge)
    ensures tuneWait != Play ==> e == NoEdge
    ensures e.Pressed? ==> e.n < 8
    ensures e.Silence? <==> tuneWait == Play && prev != 0 && cur == 0
  {
    if tuneWait == Play then ResolveEdge(prev, cur) else NoEdge
  }

  /** `note` after the button branch. */
  function NoteAfter(e: Edge, note: u8): (r: u8)
    ensures e.NoEdge? ==> r == note
    ensures e.Silence? ==> r == NoNote
    ensures e.Pressed? ==> r == e.n
  {
    match e
    case NoEdge => note
    case Silence => NoNote
    case Pressed(n) => n
  }

  /** The synthesiser after the button branch: silence quiets it and clears the note; a press
      goes through `pressNote`. */
  function ButtonSynth(s: SynthState, e: Edge): (r: SynthState)
    requires s.triWaveSteps > 0
    ensures r.note == NoteAfter(e, s.note)
    ensures r.octave == s.octave && r.waveform == s.waveform
    ensures r.triWaveSteps == s.triWaveSteps && r.samples == s.samples
    ensures e.Silence? ==> r.timerControl == 0 && r.amplitude == 0.0
    ensures e.Pressed? && e.n < 8 ==>
      r.timerControl == TimerRun && r.compare == Period(e.n, s.waveform, s.triWaveSteps, s.octave).value
  {
    match e
    case NoEdge => s
    case Silence => Quieted(s).(note := NoNote)
    case Pressed(n) => AfterPress(s, n)
  }

  /** The serial line after the button branch: only a press queues a note name. */
  function ButtonLine(l: LineState, e: Edge, octave: u8, beatCount: int): LineState
    requires |l.queue| <= Capacity && l.noteLines < NotesPerLine
  {
    if e.Pressed? then AfterNote(l, e.n, octave, beatCount) else l
  }

  /** The sequencer after `recNote` for this event: while recording, a press is appended with
      the ticks since the previous one (truncated to a byte) and the tick counter restarts. */
  function RecordEdge(p: Player, e: Edge): (q: Player)
    requires |p.entries| <= NoteBufSize
    ensures !(e.Pressed? && p.recording == 1) ==> q == p
    ensures e.Pressed? && p.recording == 1 ==>
      && q == p.(entries := q.entries, recTime := 0)
      && q.entries == Fill(p.entries, [Entry(e.n, p.recTime % 256)], NoteBufSize)
  {
    if e.Pressed? && p.recording == 1 then
      p.(entries := Fill(p.entries, [Entry(e.n, p.recTime % 256)], NoteBufSize), recTime := 0)
    else p
  }

  /** An unchanged sample never produces an event. */
  lemma SteadyButtonsAreQuiet(m: bv8, tuneWait: u8)
    ensures ButtonEvent(m, m, tuneWait) == NoEdge
  {
  }

  /** Letting go of every button silences the note, and nothing else does. */
  lemma AllUpSilences(prev: bv8, cur: bv8)
    ensures ResolveEdge(prev, cur) == Silence <==> prev != 0 && cur == 0
  {
  }

  /** Pressing one more button plays exactly that button. */
  lemma OnePressPlaysIt(prev: bv8, k: u8)
    requires k < 8 && !Held(prev, k as nat)
    ensures ResolveEdge(prev, prev | Bit(k as nat)) == Pressed(k)
  {
    AddedBitRises(prev, Bit(k as nat));
    LowestOfOneBit(k);
  }

  /** Setting a clear bit makes the sample larger, and the change is that bit. */
  lemma AddedBitRises(prev: bv8, b: bv8)
    requires prev & b == 0 && b != 0
    ensures prev < prev | b && (prev | b) ^ prev == b
  {
  }

  /** The only button of a one-button sample is its lowest. */
  lemma LowestOfOneBit(k: u8)
    requires k < 8
    ensures LowestBit(Bit(k as nat)) == k
  {
    var b := Bit(k as nat);
    forall j: nat | j < k as nat
      ensures !Held(b, j)
    {
      assert Bit(j) & b == 0;
    }
    LowestUnique(b, k);
  }

  /** A fall to a nonzero sample plays the lowest button still down. */
  lemma ReleasePlaysLowestHeld(prev: bv8, cur: bv8)
    requires cur != 0 && prev > cur
    ensures var e := ResolveEdge(prev, cur);
            && e.Pressed? && Held(cur, e.n as nat)
            && forall k :: 0 <= k < e.n as nat ==> !Held(cur, k)
  {
  }

  /** Two buttons pressed in the same tick (0b00000101 from nothing): only the lower sounds. */
  lemma SimultaneousPressLowestWins()
    ensures ResolveEdge(0x00, 0x05) == Pressed(0)
  {
    LowestUnique(0x05, 0);
  }

  /** When the sample rises while another button goes up, the lowest changed button can be the
      one just released: 0b001 to 0b110 plays note 0, which is no longer down. */
  lemma RiseCanReportReleasedButton()
    ensures ResolveEdge(0x01, 0x06) == Pressed(0) && !Held(0x06, 0)
  {
    LowestUnique(0x07, 0);
  }

  /** `recNote(n)`: while recording, buffer the note with the ticks since the last one and
      restart the tick counter. */
  method RecNote(n: u8, sq: Sequencer)
    requires sq.Valid()
    modifies sq`count, sq.noteBuffer, sq.timeBuffer, sq`recTimecounter
    ensures sq.Valid()
    ensures sq.State() == RecordEdge(old(sq.State()), Pressed(n))
  {
    if sq.recording == 1 {
      sq.BufferNote(n, sq.recTimecounter as int % 256);
      sq.recTimecounter := 0;
    }
  }

  /** The body of the scan once it finds button i: `pressNote(i); recNote(i);`. */
  method PlayButton(i: u8, sq: Sequencer, synth: Synth, port: SerialPort, beatCount: int)
    requires i < 8 && sq.Valid() && synth.Valid() && port.Valid()
    modifies sq`count, sq.noteBuffer, sq.timeBuffer, sq`recTimecounter, synth, port, port.buffer
    ensures sq.Valid() && synth.Valid() && port.Valid() && port.buffer == old(port.buffer)
    ensures sq.State() == RecordEdge(old(sq.State()), Pressed(i))
    ensures synth.State() == AfterPress(old(synth.State()), i)
    ensures synth.timerControl == TimerRun
    ensures synth.compare == Period(i, synth.waveform, synth.triWaveSteps, synth.octave).value
    ensures port.State() == AfterNote(old(port.State()), i, old(synth.octave), beatCount)
  {
    PressNote(i, synth, port, beatCount);
    RecNote(i, sq);
  }

  /** The two scanning branches, for a change to a sample with some button down: play the
      button `ResolveEdge` picks. */
  method PlayChange(prev: bv8, cur: bv8, sq: Sequencer, synth: Synth, port: SerialPort, beatCount: int)
    requires cur != prev && cur != 0
    requires sq.Valid() && synth.Valid() && port.Valid()
    modifies sq`count, sq.noteBuffer, sq.timeBuffer, sq`recTimecounter, synth, port, port.buffer
    ensures ResolveEdge(prev, cur).Pressed?
    ensures var i := ResolveEdge(prev, cur).n;
      && sq.Valid() && synth.Valid() && port.Valid() && port.buffer == old(port.buffer)
      && sq.State() == RecordEdge(old(sq.State()), Pressed(i))
      && synth.State() == AfterPress(old(synth.State()), i)
      && port.State() == AfterNote(old(port.State()), i, old(synth.octave), beatCount)
  {
    var found, i;
    if prev > cur {
      found, i := ScanLowestBit(cur);
    } else {
      found, i := ScanLowestBit(cur ^ prev);
    }
    assert ResolveEdge(prev, cur) == Pressed(i);
    PlayButton(i, sq, synth, port, beatCount);
  }

  /** The globals of timer2.c. */
  class Ticker {
    var prevButtonStatus: bv8
    var cat: u8

    ghost predicate Valid()
      reads this
    {
      cat <= 1
    }

    constructor ()
      ensures Valid() && prevButtonStatus == 0 && cat == 0
    {
      prevButtonStatus := 0;
      cat := 0;
    }

    /** The button branch of the tick, for the sample `cur`. */
    method HandleButtons(cur: bv8, sq: Sequencer, synth: Synth, port: SerialPort, beatCount: int)
      requires sq.Valid() && synth.Valid() && port.Valid()
      modifies sq`count, sq.noteBuffer, sq.timeBuffer, sq`recTimecounter, synth, port, port.buffer
      ensures sq.Valid() && synth.Valid() && port.Valid() && port.buffer == old(port.buffer)
      ensures var e := ButtonEvent(prevButtonStatus, cur, old(sq.tuneWait));
        && sq.State() == RecordEdge(old(sq.State()), e)
        && synth.State() == ButtonSynth(old(synth.State()), e)
        && port.State() == ButtonLine(old(port.State()), e, old(synth.octave), beatCount)
      ensures ButtonEvent(prevButtonStatus, cur, old(sq.tuneWait)) == NoEdge ==>
        unchanged(synth) && unchanged(port) && unchanged(port.buffer)
      ensures ButtonEvent(prevButtonStatus, cur, old(sq.tuneWait)) == Silence ==>
        unchanged(port) && unchanged(port.buffer)
    {
      var prev := prevButtonStatus;
      if cur != prev && sq.tuneWait == Play {
        if cur == 0 {
          synth.Quiet();
          synth.note := NoNote;
        } else {
          PlayChange(prev, cur, sq, synth, port, beatCount);
        }
      }
    }

    /** The tick interrupt. `sample` is the first read of the button port and `resample` the
        second, which becomes the previous sample. */
    method Tick(sample: bv8, resample: bv8, sq: Sequencer, synth: Synth, port: SerialPort,
                beat: Beat, display: Display)
      requires Valid() && sq.Valid() && synth.Valid() && port.Valid() && beat.Valid()
      modifies this, sq`count, sq.noteBuffer, sq.timeBuffer, sq`recTimecounter
      modifies sq`tuneWait, sq`playbackCounter, sq`noteSpace
      modifies synth, port, port.buffer, beat, display
      ensures Valid() && sq.Valid() && synth.Valid() && port.Valid() && beat.Valid()
      ensures port.buffer == old(port.buffer)
      ensures prevButtonStatus == resample && cat == 1 - old(cat)
      ensures beat.beatCount == NextBeat(old(beat.beatCount))
      ensures beat.ledOn == 1 <==> beat.beatCount < OnWindow
      ensures beat.port == WriteLedBit(old(beat.port), beat.ledOn)
      ensures var e := ButtonEvent(old(prevButtonStatus), sample, old(sq.tuneWait));
        && display.portC == NoteToSegVal(NoteAfter(e, old(synth.note)), old(cat), old(synth.octave))
        && var st := PlaybackStepSpec(RecordEdge(old(sq.State()), e), beat.beatCount);
        && var v := ButtonSynth(old(synth.State()), e);
        && sq.State() == st.next
        && synth.State() == PlayedSynth(v, st)
        && port.State() == PlayedLine(ButtonLine(old(port.State()), e, old(synth.octave), old(beat.beatCount)),
                                      st, v.octave, beat.beatCount)
      ensures old(sq.Dormant()) ==>
        sq.Dormant() && unchanged(synth) && unchanged(port) && unchanged(port.buffer)
    {
      HandleButtons(sample, sq, synth, port, beat.beatCount);
      prevButtonStatus := resample;
      display.SegmentPrint(synth.note, cat, synth.octave);
      cat := 1 - cat;
      beat.BeatStep();
      sq.PlaybackStep(synth, port, beat.beatCount);
    }
  }
}
