/** `pressNote` (timer2.c): the action shared by a key press and by playback. */
module Press {
  import opened Bytes
  import opened Notes
  import opened Serial

  /** The synthesiser after `pressNote(n)`: n made current and started. */
  function AfterPress(s: SynthState, n: u8): SynthState
    requires s.triWaveSteps > 0
  {
    Started(s.(note := n))
  }

  /** `pressNote(n)`: make n the current note, start (or silence) the note timer, and
      queue the note's name on the serial line. */
  method PressNote(n: u8, synth: Synth, port: SerialPort, beatCount: int)
    requires synth.Valid() && port.Valid()
    modifies synth, port, port.buffer
    ensures synth.Valid() && port.Valid() && port.buffer == old(port.buffer)
    ensures synth.note == n
    ensures n <= 7 ==>
      synth.compare == Period(n, synth.waveform, synth.triWaveSteps, synth.octave).value
      && synth.timerControl == TimerRun
    ensures n > 7 ==> synth.timerControl == 0 && synth.amplitude == 0.0
    ensures synth.waveform == old(synth.waveform) && synth.octave == old(synth.octave)
    ensures synth.triWaveSteps == old(synth.triWaveSteps) && synth.samples == old(synth.samples)
    ensures port.Queue() == Fill(old(port.Queue()), NoteName(n, synth.octave, beatCount) + LineBreak(old(port.noteLines)), Capacity)
    ensures port.noteLines == (old(port.noteLines) + 1) % NotesPerLine
    ensures port.sent == old(port.sent)
    ensures synth.State() == AfterPress(old(synth.State()), n)
    ensures port.State() == AfterNote(old(port.State()), n, old(synth.octave), beatCount)
  {
    synth.note := n;
    synth.StartNote();
    port.OutputNote(synth.note, synth.octave, beatCount);
  }
}
