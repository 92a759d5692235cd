/** The serial receive handler (serial.c): one received character selects at most one command. */
module Commands {
  import opened Bytes
  import opened Notes
  import opened Serial
  import opened Playback

  /** What a received character does, given the state it is received in. */
  datatype Action =
    | Ignore
    | ToggleWave(w: u8)
    | DemoTune
    | StepsDown
    | StepsUp
    | OctaveToggle
    | RecordToggle
    | StartPlayback

  const DemoMsg: seq<char> := "\r\n-DemoTune- "
  const OctaveMsg: seq<char> := "\r\n-OctaveToggle- "
  const StopMsg: seq<char> := " -RecordingStop-"
  const StartMsg: seq<char> := " -RecordingStart-"
  const PlayMsg: seq<char> := " -playbackStart-"

  /** The `if`/`else if` chain of the handler. A lower-case letter is only converted to upper
      case: the conversion is the first branch of the chain, so no command follows it. */
  function Dispatch(input: char, recording: u8, tuneWait: u8, triWaveSteps: u8, count: int): (a: Action)
    ensures 'a' <= input <= 'z' ==> a == Ignore
    ensures a.ToggleWave? ==> recording == 0 && ((input == 'T' && a.w == Triangle) || (input == 'S' && a.w == Sine))
    ensures a == DemoTune ==> input == 'D' && tuneWait == Play
    ensures a == StepsDown ==> input == '<' && triWaveSteps > 4
    ensures a == StepsUp ==> input == '>' && triWaveSteps < 16
    ensures a == OctaveToggle ==> input == 'U' && recording == 0
    ensures a == RecordToggle ==> input == 'R' && tuneWait == Idle
    ensures a == StartPlayback ==> input == 'P' && recording == 0 && tuneWait == Idle && count > 0
  {
    if 'a' <= input <= 'z' then Ignore
    else if input == 'T' && recording == 0 then ToggleWave(Triangle)
    else if input == 'S' && recording == 0 then ToggleWave(Sine)
    else if input == 'D' && tuneWait == Play then DemoTune
    else if input == '<' && triWaveSteps > 4 then StepsDown
    else if input == '>' && triWaveSteps < 16 then StepsUp
    else if input == 'U' && recording == 0 then OctaveToggle
    else if input == 'R' && tuneWait == Idle then RecordToggle
    else if input == 'P' && recording == 0 && tuneWait == Idle && count > 0 then StartPlayback
    else Ignore
  }

  /** The text an action queues on the serial line. */
  function Reply(a: Action, recording: u8): (t: seq<char>)
    ensures Nul !in t
  {
    match a
    case DemoTune => DemoMsg
    case OctaveToggle => OctaveMsg
    case RecordToggle => if recording != 0 then StopMsg else StartMsg
    case StartPlayback => PlayMsg
    case _ => []
  }

  /** Commands arrive in upper case only: every lower-case letter is ignored. */
  lemma LowerCaseIgnored(input: char, recording: u8, tuneWait: u8, triWaveSteps: u8, count: int)
    requires 'a' <= input <= 'z'
    ensures Dispatch(input, recording, tuneWait, triWaveSteps, count) == Ignore
  {
  }

  /** Playback is never started while recording, nor recording toggled while a playback is
      armed or running. */
  lemma RecordAndPlayExclude(input: char, recording: u8, tuneWait: u8, triWaveSteps: u8, count: int)
    ensures recording != 0 ==> Dispatch(input, recording, tuneWait, triWaveSteps, count) != StartPlayback
    ensures tuneWait != Idle ==> Dispatch(input, recording, tuneWait, triWaveSteps, count) != RecordToggle
    ensures tuneWait != Idle ==> Dispatch(input, recording, tuneWait, triWaveSteps, count) != StartPlayback
  {
  }

  /** The step count moves by one and only inside 4..16. */
  lemma StepsStayInRange(input: char, recording: u8, tuneWait: u8, triWaveSteps: u8, count: int)
    requires MinTriSteps <= triWaveSteps <= MaxTriSteps
    ensures var a := Dispatch(input, recording, tuneWait, triWaveSteps, count);
            && (a == StepsDown ==> MinTriSteps <= triWaveSteps - 1)
            && (a == StepsUp ==> triWaveSteps + 1 <= MaxTriSteps)
  {
  }

  /** The demo tune is only accepted while a playback is running (`tuneWait == 0`). */
  lemma DemoOnlyWhilePlaying(input: char, recording: u8, tuneWait: u8, triWaveSteps: u8, count: int)
    ensures Dispatch(input, recording, tuneWait, triWaveSteps, count) == DemoTune <==>
            input == 'D' && tuneWait == Play
  {
  }

  /** The commands that act on the synthesizer alone: 'T', 'S', '<', '>' and 'U'. */
  predicate SynthAction(a: Action)
  {
    a.ToggleWave? || a == StepsDown || a == StepsUp || a == OctaveToggle
  }

  /** The synthesiser after one of the 'T', 'S', '<', '>' and 'U' commands. */
  function SynthActed(a: Action, s: SynthState): (r: SynthState)
    requires SynthAction(a) && s.triWaveSteps > 0 && s.octave <= 1
    requires a == StepsDown ==> s.triWaveSteps > MinTriSteps
    requires a == StepsUp ==> s.triWaveSteps < MaxTriSteps
    ensures r.note == s.note && r.samples == s.samples
    ensures r.waveform == if a.ToggleWave? then ToggledWaveform(s.waveform, a.w) else s.waveform
    ensures r.octave == if a == OctaveToggle then 1 - s.octave else s.octave
    ensures r.triWaveSteps == s.triWaveSteps + (if a == StepsUp then 1 else if a == StepsDown then -1 else 0)
    ensures !a.ToggleWave? ==> r == s.(octave := r.octave, triWaveSteps := r.triWaveSteps)
    ensures a.ToggleWave? && s.note <= 7 ==>
      r.timerControl == TimerRun && r.compare == Period(s.note, r.waveform, s.triWaveSteps, s.octave).value
  {
    match a
    case ToggleWave(w) => Toggled(s, w)
    case StepsDown => s.(triWaveSteps := s.triWaveSteps - 1)
    case StepsUp => s.(triWaveSteps := s.triWaveSteps + 1)
    case OctaveToggle => s.(octave := 1 - s.octave)
  }

  /** `record_stop` or `record_start` on the sequencer: starting empties the buffer and notes
      the beat, waveform and octave to play it back with. */
  function RecordToggled(p: Player, s: SynthState, beatCount: int): (q: Player)
    ensures q.recording == (if p.recording != 0 then 0 else 1)
    ensures p.recording != 0 ==> q.entries == p.entries && q.recBeatset == p.recBeatset
    ensures p.recording == 0 ==>
      q.entries == [] && q.recWaveform == s.waveform && q.recOctave == s.octave && q.recBeatset == beatCount % 65536
    ensures q.tuneWait == p.tuneWait && q.counter == p.counter && q.space == p.space
  {
    if p.recording != 0 then p.(recording := 0)
    else p.(entries := [], recWaveform := s.waveform, recBeatset := beatCount % 65536,
            recOctave := s.octave, recording := 1)
  }

  /** The sequencer after one of the 'D', 'R' and 'P' commands. */
  ghost function PlayerActed(a: Action, p: Player, s: SynthState, beatCount: int): Player
    requires a == DemoTune || a == RecordToggle || a == StartPlayback
    requires |p.entries| <= NoteBufSize && (a == StartPlayback ==> |p.entries| > 0)
  {
    match a
    case DemoTune => DemoPlayer(p, s)
    case RecordToggle => RecordToggled(p, s, beatCount)
    case StartPlayback => ArmedPlayer(p, s)
  }

  /** The synthesiser after one of the 'D', 'R' and 'P' commands: no note is started or
      stopped, only the octave and waveform can change. */
  function SynthOfPlayer(a: Action, s: SynthState, p: Player): (r: SynthState)
    requires a == DemoTune || a == RecordToggle || a == StartPlayback
    ensures r == s.(octave := r.octave, waveform := r.waveform)
    ensures a == DemoTune && p.recording != 0 ==> r == s
    ensures a == RecordToggle ==> r == s
  {
    match a
    case DemoTune => DemoSynth(s, p)
    case RecordToggle => s
    case StartPlayback => ArmedSynth(s, p)
  }

  /** The serial line after an action: its reply, if any, goes through `output_string`. */
  function LineActed(a: Action, l: LineState, recording: u8): (r: LineState)
    requires |l.queue| <= Capacity
    ensures r.noteLines == l.noteLines && r.sent == l.sent
    ensures r.queue == Fill(l.queue, Reply(a, recording), Capacity)
  {
    var msg := Reply(a, recording);
    if msg == [] then l else Announced(l, msg)
  }

  /** The serial line after `output_string` of a message without NUL (see `Send`). */
  function Announced(l: LineState, msg: seq<char>): (r: LineState)
    requires |l.queue| <= Capacity
  {
    l.(queue := Fill(l.queue, msg, Capacity), udrie := true)
  }

  /** Everything the receive handler can change. */
  datatype Devices = Devices(player: Player, synth: SynthState, line: LineState)

  /** The handler as a function of the state it runs in: what `Dispatch` selects, applied. */
  ghost function Received(input: char, d: Devices, beatCount: int): (r: Devices)
    requires |d.player.entries| <= NoteBufSize
    requires MinTriSteps <= d.synth.triWaveSteps <= MaxTriSteps && d.synth.octave <= 1
    requires |d.line.queue| <= Capacity
    ensures 'a' <= input <= 'z' ==> r == d
    ensures d.player.tuneWait != Idle ==> r.player.recording == d.player.recording
    ensures d.player.recording != 0 ==>
      r.synth.waveform == d.synth.waveform && r.synth.octave == d.synth.octave && r.synth.note == d.synth.note
    ensures input == '<' && d.synth.triWaveSteps > 4 ==>
      r.synth == d.synth.(triWaveSteps := d.synth.triWaveSteps - 1) && r.player == d.player && r.line == d.line
    ensures input == '>' && d.synth.triWaveSteps < 16 ==>
      r.synth == d.synth.(triWaveSteps := d.synth.triWaveSteps + 1) && r.player == d.player && r.line == d.line
    ensures d.player.tuneWait == Idle && d.player.entries == [] ==>
      r.player.tuneWait == Idle && r.player.entries == []
  {
    var p := d.player;
    var s := d.synth;
    var a := Dispatch(input, p.recording, p.tuneWait, s.triWaveSteps, |p.entries|);
    if a == Ignore then d
    else if SynthAction(a) then Devices(p, SynthActed(a, s), LineActed(a, d.line, p.recording))
    else Devices(PlayerActed(a, p, s, beatCount), SynthOfPlayer(a, s, p), LineActed(a, d.line, p.recording))
  }

  /** 'D' during a playback arms the demo tune and saves the playback's octave and waveform,
      overwriting the ones saved when that playback was armed: those are never restored. */
  lemma DemoReplacesSavedSettings(d: Devices, beatCount: int)
    requires |d.player.entries| <= NoteBufSize
    requires MinTriSteps <= d.synth.triWaveSteps <= MaxTriSteps && d.synth.octave <= 1
    requires |d.line.queue| <= Capacity
    requires d.player.tuneWait == Play && d.player.recording == 0
    ensures var r := Received('D', d, beatCount);
            && r.player.tuneWait == WaitForBeat && r.player.recBeatset == 0
            && r.player.tmpOctave == d.synth.octave && r.player.tmpWaveform == d.synth.waveform
            && r.synth.octave == 0 && r.synth.waveform == d.synth.waveform
  {
  }

  /** `ISR(USART0_RX_vect)` for the received character `input`: the chain's conditions are
      `Dispatch`, and each branch's body is one case of `SynthCommand` or `SequencerCommand`. */
  method Receive(input: char, sq: Sequencer, synth: Synth, port: SerialPort, beatCount: int)
    returns (a: Action)
    requires sq.Valid() && synth.Valid() && port.Valid()
    modifies sq`count, sq.noteBuffer, sq.timeBuffer, sq`recording
    modifies sq`playbackCounter, sq`noteSpace, sq`tuneWait, sq`tmpOctave, sq`tmpWaveform
    modifies sq`recBeatset, sq`recWaveform, sq`recOctave
    modifies synth, port, port.buffer
    ensures sq.Valid() && synth.Valid() && port.Valid() && port.buffer == old(port.buffer)
    ensures a == Dispatch(input, old(sq.recording), old(sq.tuneWait), old(synth.triWaveSteps), old(sq.count))
    ensures port.Queue() == Fill(old(port.Queue()), Reply(a, old(sq.recording)), Capacity)
    ensures Devices(sq.State(), synth.State(), port.State())
         == Received(input, Devices(old(sq.State()), old(synth.State()), old(port.State())), beatCount)
    ensures a == Ignore ==>
      && unchanged(sq) && unchanged(sq.noteBuffer) && unchanged(sq.timeBuffer)
      && unchanged(synth) && unchanged(port) && unchanged(port.buffer)
    ensures SynthAction(a) ==> unchanged(sq) && unchanged(sq.noteBuffer) && unchanged(sq.timeBuffer)
    ensures old(sq.Dormant()) ==> sq.Dormant()
  {
    a := Dispatch(input, sq.recording, sq.tuneWait, synth.triWaveSteps, sq.count);
    if a == Ignore {
    } else if SynthAction(a) {
      SynthCommand(a, synth, port);
    } else {
      SequencerCommand(a, sq, synth, port, beatCount);
    }
  }

  /** The bodies of the 'T', 'S', '<', '>' and 'U' branches. */
  method SynthCommand(a: Action, synth: Synth, port: SerialPort)
    requires SynthAction(a) && synth.Valid() && port.Valid()
    requires a == StepsDown ==> synth.triWaveSteps > MinTriSteps
    requires a == StepsUp ==> synth.triWaveSteps < MaxTriSteps
    modifies synth, port, port.buffer
    ensures synth.Valid() && port.Valid() && port.buffer == old(port.buffer)
    ensures synth.State() == SynthActed(a, old(synth.State()))
    ensures port.State() == LineActed(a, old(port.State()), 0)
    ensures a != OctaveToggle ==> unchanged(port)
  {
    match a
    case ToggleWave(w) =>
      ghost var l0 := port.State();
      synth.SetWaveform(w);
      assert LineActed(a, l0, 0) == l0;
    case StepsDown =>
      StepCommand(a, synth);
    case StepsUp =>
      StepCommand(a, synth);
    case OctaveToggle =>
      OctaveCommand(synth, port);
  }

  /** '<' and '>': one step fewer or more per half period of the triangle. */
  method StepCommand(a: Action, synth: Synth)
    requires a == StepsDown || a == StepsUp
    requires synth.Valid()
    requires a == StepsDown ==> synth.triWaveSteps > MinTriSteps
    requires a == StepsUp ==> synth.triWaveSteps < MaxTriSteps
    modifies synth`triWaveSteps
    ensures synth.Valid()
    ensures synth.State() == SynthActed(a, old(synth.State()))
  {
    if a == StepsDown {
      synth.triWaveSteps := synth.triWaveSteps - 1;
    } else {
      synth.triWaveSteps := synth.triWaveSteps + 1;
    }
  }

  /** 'U': switch octave and announce it. */
  method OctaveCommand(synth: Synth, port: SerialPort)
    requires synth.Valid() && port.Valid()
    modifies synth`octave, port, port.buffer
    ensures synth.Valid() && port.Valid() && port.buffer == old(port.buffer)
    ensures synth.State() == SynthActed(OctaveToggle, old(synth.State()))
    ensures port.State() == LineActed(OctaveToggle, old(port.State()), 0)
  {
    ghost var l0 := port.State();
    synth.octave := 1 - synth.octave;
    Send(port, OctaveMsg);
    assert LineActed(OctaveToggle, l0, 0) == Announced(l0, OctaveMsg);
  }

  /** The bodies of the 'D', 'R' and 'P' branches. */
  method SequencerCommand(a: Action, sq: Sequencer, synth: Synth, port: SerialPort, beatCount: int)
    requires a == DemoTune || a == RecordToggle || a == StartPlayback
    requires sq.Valid() && synth.Valid() && port.Valid()
    requires a == DemoTune ==> sq.tuneWait == Play
    requires a == RecordToggle ==> sq.tuneWait == Idle
    requires a == StartPlayback ==> sq.recording == 0 && sq.tuneWait == Idle && sq.count > 0
    modifies sq`count, sq.noteBuffer, sq.timeBuffer, sq`recording
    modifies sq`playbackCounter, sq`noteSpace, sq`tuneWait, sq`tmpOctave, sq`tmpWaveform
    modifies sq`recBeatset, sq`recWaveform, sq`recOctave
    modifies synth`octave, synth`waveform, port, port.buffer
    ensures sq.Valid() && synth.Valid() && port.Valid() && port.buffer == old(port.buffer)
    ensures sq.State() == PlayerActed(a, old(sq.State()), old(synth.State()), beatCount)
    ensures synth.State() == SynthOfPlayer(a, old(synth.State()), old(sq.State()))
    ensures port.State() == LineActed(a, old(port.State()), old(sq.recording))
  {
    ghost var p0 := sq.State();
    ghost var s0 := synth.State();
    ghost var l0 := port.State();
    if a == DemoTune {
      DemoCommand(sq, synth, port);
      assert LineActed(a, l0, p0.recording) == Announced(l0, DemoMsg);
    } else if a == RecordToggle {
      RecordCommand(sq, synth, port, beatCount);
      assert LineActed(a, l0, p0.recording) == Announced(l0, if p0.recording != 0 then StopMsg else StartMsg);
    } else {
      PlaybackCommand(sq, synth, port);
      assert LineActed(a, l0, p0.recording) == Announced(l0, PlayMsg);
    }
  }

  /** 'D': start the demo tune and announce it. */
  method DemoCommand(sq: Sequencer, synth: Synth, port: SerialPort)
    requires sq.Valid() && synth.Valid() && port.Valid()
    modifies sq`count, sq.noteBuffer, sq.timeBuffer
    modifies sq`playbackCounter, sq`noteSpace, sq`tuneWait, sq`tmpOctave, sq`tmpWaveform
    modifies sq`recBeatset, sq`recWaveform, sq`recOctave
    modifies synth`octave, synth`waveform, port, port.buffer
    ensures sq.Valid() && synth.Valid() && port.Valid() && port.buffer == old(port.buffer)
    ensures port.Queue() == Fill(old(port.Queue()), DemoMsg, Capacity)
    ensures sq.recording == 0 ==>
      && sq.Entries() == Fill(old(sq.Entries()), SongEntries(TwinkleSong, TwinkleTime), NoteBufSize)
      && sq.tuneWait == WaitForBeat && sq.recBeatset == 0 && synth.octave == 0
    ensures sq.recording != 0 ==> sq.count == old(sq.count) && sq.tuneWait == old(sq.tuneWait)
    ensures sq.State() == DemoPlayer(old(sq.State()), old(synth.State()))
    ensures synth.State() == DemoSynth(old(synth.State()), old(sq.State()))
    ensures port.State() == Announced(old(port.State()), DemoMsg)
  {
    sq.DemoTuneStart(synth);
    Send(port, DemoMsg);
  }

  /** 'R': stop recording if it is on, otherwise start it, and announce which. */
  method RecordCommand(sq: Sequencer, synth: Synth, port: SerialPort, beatCount: int)
    requires sq.Valid() && synth.Valid() && port.Valid()
    modifies sq`count, sq`recWaveform, sq`recBeatset, sq`recOctave, sq`recording, port, port.buffer
    ensures sq.Valid() && port.Valid() && port.buffer == old(port.buffer)
    ensures sq.recording == 1 - old(sq.recording)
    ensures old(sq.recording) != 0 ==> sq.count == old(sq.count)
    ensures old(sq.recording) == 0 ==>
      && sq.Entries() == [] && sq.recWaveform == synth.waveform && sq.recOctave == synth.octave
      && sq.recBeatset == beatCount % 65536
    ensures port.Queue() == Fill(old(port.Queue()), if old(sq.recording) != 0 then StopMsg else StartMsg, Capacity)
    ensures sq.State() == RecordToggled(old(sq.State()), synth.State(), beatCount)
    ensures port.State() == Announced(old(port.State()), if old(sq.recording) != 0 then StopMsg else StartMsg)
  {
    if sq.recording != 0 {
      sq.RecordStop();
      Send(port, StopMsg);
    } else {
      sq.RecordStart(synth.waveform, synth.octave, beatCount);
      Send(port, StartMsg);
    }
  }

  /** 'P' when allowed: arm the playback of the buffer and announce it. */
  method PlaybackCommand(sq: Sequencer, synth: Synth, port: SerialPort)
    requires sq.Valid() && synth.Valid() && port.Valid()
    modifies sq`playbackCounter, sq`noteSpace, sq`tuneWait, sq`tmpOctave, sq`tmpWaveform
    modifies synth`octave, synth`waveform, port, port.buffer
    ensures sq.Valid() && synth.Valid() && port.Valid() && port.buffer == old(port.buffer)
    ensures sq.tuneWait == WaitForBeat && sq.playbackCounter == 0 && sq.Entries() == old(sq.Entries())
    ensures sq.tmpOctave == old(synth.octave) && sq.tmpWaveform == old(synth.waveform)
    ensures synth.octave == sq.recOctave && synth.waveform == sq.recWaveform
    ensures sq.noteSpace == sq.timeBuffer[0]
    ensures old(sq.count) > 0 ==> sq.State() == ArmedPlayer(old(sq.State()), old(synth.State()))
    ensures synth.State() == ArmedSynth(old(synth.State()), old(sq.State()))
    ensures port.Queue() == Fill(old(port.Queue()), PlayMsg, Capacity)
    ensures port.State() == Announced(old(port.State()), PlayMsg)
  {
    sq.PlayBuffer(synth);
    Send(port, PlayMsg);
  }

  /** `output_string` of a message without NUL: the whole message is queued, up to capacity. */
  method Send(port: SerialPort, msg: seq<char>)
    requires port.Valid() && Nul !in msg
    modifies port, port.buffer
    ensures port.Valid() && port.buffer == old(port.buffer)
    ensures port.Queue() == Fill(old(port.Queue()), msg, Capacity)
    ensures port.noteLines == old(port.noteLines) && port.sent == old(port.sent) && port.udrie
    ensures port.State() == Announced(old(port.State()), msg)
  {
    CStringAt(msg, |msg|);
    port.OutputString(msg);
  }
}
