# Eight-button synthesiser firmware, modelled in Dafny

The firmware runs on an AVR board with eight push buttons on port A. It also has a
two-digit seven-segment display on port C, a beat LED on bit 4 of port E, a D/A converter
and a serial line. This project models the firmware's core as Dafny classes over the C
globals, with every interrupt handler as one atomic method:

- **Tick interrupt** (`timer2.c`, 1 ms). It turns a change in the button sample into at
  most one note event. It then shows one digit of the current note and advances the
  499-tick beat counter and its LED. Last, it steps the sequencer.
- **Sequencer** (`playback.c`). Two parallel 24-slot buffers hold (note, time) pairs.
  Recording appends a key press with the ticks since the previous press. Playback is
  armed to start on the beat recorded with the take. It consumes the buffers from the
  end, so the last note recorded plays first. After a note of time `t` the next one
  sounds `(t*10) mod 256 + 1` ticks later: the tick counter restarts at 0 and the note
  plays on the tick it equals the note space. At the end of playback the saved octave
  and waveform are restored. The built-in demo tune goes through the same path.
- **Synthesiser** (`notes.c`). It covers:
  - the compare value programmed for a note, waveform, triangle step count and octave;
  - silencing;
  - the waveform toggle;
  - the sample interrupt, which computes the next square, triangle or sine amplitude
    and sends its rounded value to the D/A converter.
- **Serial line** (`serial.c`). It covers:
  - a 64-byte circular transmit queue, drained one byte per "register empty" interrupt;
  - the note name sent for every played note: upper case while the beat count is in 450..498
    or 0..50 (49 ticks before the beat to 50 after it),
    lower case otherwise, with a line break every 20 notes;
  - the receive handler, which maps one character to one command: T, S, D, <, >, U, R, P.
- **Beat LED** (`led.c`) and **display** (`segment.c`).

The modules follow the C files:
- `Led`, `Segment`, `Notes`, `Serial`, `Playback` and `Timer2` each model the C file of
  the same name;
- `Press` models `pressNote` from `timer2.c`, in a module of its own because both the
  tick and the sequencer call it;
- `Commands` models the receive handler of `serial.c`;
- `Bytes` has no C counterpart: it holds the machine integers and the bounded append
  shared by the others.

The synthesiser, serial-line and sequencer classes have a ghost `State()` value: `Notes.SynthState` for the synthesiser,
`Serial.LineState` for the serial line and `Playback.Player` for the sequencer. The
methods that the tick and the receive handler are built from state their new `State()`
as a pure function of the old ones:
- `PlaybackStepSpec`, `DueStep`, `PlayedSynth` and `PlayedLine` for a sequencer step;
- `ButtonEvent`, `RecordEdge`, `ButtonSynth` and `ButtonLine` for the buttons;
- `Dispatch` and `Received` for serial commands;
- `Quieted`, `Started`, `Toggled`, `AfterPress`, `AfterString` and `AfterNote` for the
  synthesiser and serial primitives.

The remaining methods (the sample interrupt, the transmit interrupt, the beat LED and the
display) list every field they change in terms of pure functions such as `SquareStep`,
`RingView` and `NoteToSegVal`. The properties are then proved about those functions.

Behaviour of the code worth noting:
- **Press branch.** When the sample rises, the code scans `cur ^ prev`, not the newly
  pressed buttons. A rise that also releases a lower button therefore reports that released
  button (`Timer2.RiseCanReportReleasedButton`).
- **Release branch.** When the sample falls, the code plays the lowest button still held,
  not the one that changed.
- **Lower-case commands.** The conversion to upper case is the first branch of the
  `else if` chain, so a lower-case command letter does nothing.
- **Buttons and `D`.** Both act only while `tuneWait == 0`, that is while a playback runs,
  although the comment at timer2.c:82-85 says the buttons should act while the demo tune is
  inactive.
  From reset (`tuneWait == 255`, empty buffer) neither the tick nor the receive handler
  ever leaves that dormant state. So in the code as written, the keys never sound, and
  recording followed by playback cannot happen from reset (`Timer2.Ticker.Tick` and
  `Commands.Receive` preserve `Sequencer.Dormant`).
- **Last note of a playback.** It is started in the playback's octave and waveform; the
  saved ones are restored right after, so they only apply to the next note started
  (`Playback.LastNoteKeepsPlaybackPitch`).
- **`D` during a playback.** Arming the demo tune saves the playback's octave and waveform
  over the ones saved when the playback was armed, so the original ones are never restored
  (`Commands.DemoReplacesSavedSettings`).
- **Full sequencer buffer.** `recNote` (timer2.c:63-69) calls `buffer_note` directly and
  never `record_note` (playback.c:99-107), so recording does not stop by itself when the
  24 slots are full; later presses are dropped by `buffer_note`.
- **Full transmit queue.** Extra bytes are dropped: the first 64 queued bytes are kept and
  the newest are lost, as `Bytes.Fill` states.

## Model

| member | source | states |
|---|---|---|
| Bytes.Inc8 | playback.c:160 | a `uint8_t` post-increment adds one and wraps from 255 to 0 |
| Bytes.Inc16 | playback.c:145 | a `uint16_t` post-increment adds one and wraps from 65535 to 0 |
| Bytes.Fill | serial.c:72-81 | offering items to a bounded buffer appends those that fit, in order, drops the rest and leaves the held items untouched |
| Bytes.FillConcat | serial.c:96-98 | offering two sequences one after the other is the same as offering their concatenation |
| Led.NextBeat | led.c:40-43 | the beat counter stays in 0..498 and moves one place round the 499-tick cycle |
| Led.BeatsIsModular | led.c:40-43 | after n steps the counter is (b + n) mod 499 |
| Led.BeatPeriodic | led.c:40-43 | any multiple of 499 steps returns the counter to where it was |
| Led.WriteLedBit | led.c:59-66 | the LED write sets bit 4 of PORTE exactly when on == 1 and leaves the other seven bits unchanged |
| Led.Beat.LedWrite | led.c:56-67 | PORTE becomes WriteLedBit of its old value, and `ledOn` records the LED state |
| Led.Beat.BeatStep | led.c:29-52 | the counter advances by one round the 499-tick cycle; the LED is lit exactly while the new count is below 100 |
| Led.Beat.constructor | led.c:15-16 | the beat counter starts at 0 with the LED off |
| Segment.NoteToSegVal | segment.c:18-47 | for no note or a note above 7 the digit is blank, otherwise lit. The left digit shows the note's letter (C D E F G A B C) and the right digit its octave number (4 or 5, one higher in the upper octave) |
| Segment.BothCsLookAlike | segment.c:23 | notes 0 and 7 show the same letter C on the left digit |
| Segment.RightDigitIsOctave | segment.c:39-42 | on the right digit notes 0..6 share one glyph, and note 7 shows the next one |
| Segment.Display.SegmentPrint | segment.c:50-54 | PORTC gets the value of NoteToSegVal and is zero exactly when there is no note to show |
| Segment.Display.constructor | segment.c:10-14 | the display port holds 0, every segment off, until the first print; setup only makes it an output |
| Notes.Period | notes.c:52-65 | no compare value exactly for a note above 7 |
| Notes.PeriodBrackets | notes.c:42-65 | with the step count in 4..16 the decrement never wraps. The compare value plus one, times the timer periods per half period (steps times octave divisor), brackets the note's clock count |
| Notes.ToggledWaveform | notes.c:88-92 | selecting waveform w gives w, unless w is already selected, which gives square |
| Notes.ToggleTwice | notes.c:88-92 | selecting the same waveform twice restores the original |
| Notes.SquareStep | notes.c:130-132 | a square sample reflects the amplitude about 127.5 and stays in 0..255 |
| Notes.SquareStepTwice | notes.c:130-132 | two square samples give back the original amplitude |
| Notes.TriangleStep | notes.c:135-153 | a triangle sample moves 256/steps towards the current end. It clamps to 255 and turns down above 254, clamps to 0 and turns up below 1, and stays in 0..255 |
| Notes.SineStep | notes.c:156-166 | a sine sample advances the table position modulo 32 and takes the amplitude from the 32-entry table |
| Notes.Round | notes.c:170 | the byte sent to the D/A converter is the amplitude rounded to the nearest integer |
| Notes.Synth.Quiet | notes.c:100-108 | the note timer stops and the generator resets (amplitude 0, rising, sine position 0); the whole state is Quieted of the old one, so nothing else changes |
| Notes.Synth.StartNote | notes.c:39-76 | for a note 0..7 the compare register gets Period and the timer runs; for any other note the synthesiser is silenced as by `quiet`; nothing else changes (Started) |
| Notes.Synth.SetWaveform | notes.c:81-96 | the generator resets, the waveform toggles as ToggledWaveform states and the current note restarts with it; nothing else changes (Toggled) |
| Notes.Synth.SampleStep | notes.c:113-171 | the amplitude takes the square, triangle or sine step of the selected waveform and stays put for any other waveform number. The rounded amplitude is appended to the D/A output |
| Notes.Synth.constructor | notes.c:14-20 | the static initialisers: square wave, rising, sine position 0, amplitude 0, no note (255), 8 triangle steps, lower octave, timer stopped |
| Serial.RingView | serial.c:20-33 | the queue is the `count` bytes just before the insert position, oldest first, wrapping round the 64 slots |
| Serial.RingViewPush | serial.c:74-79 | writing at the insert position and advancing it appends one byte to the queue |
| Serial.RingViewPop | serial.c:178-188 | the oldest byte sits `count` slots before the insert position, and dropping it leaves the rest of the queue |
| Serial.CString | serial.c:96 | the bytes sent for a string are those before its first NUL |
| Serial.CStringAt | serial.c:96 | a NUL-free prefix ending at the end of the string or at a NUL is its C string |
| Serial.NoteName | serial.c:130-151 | a note 0..7 in octave 0 or 1 is named by three characters. The name is upper case near the beat and lower case otherwise; anything else sends nothing |
| Serial.NoteText | serial.c:130-151 | a name exists exactly for notes 0..7 in octave 0 or 1. It is a space, the letter and the octave digit that the display shows for that note, with the letter in lower case for the off-beat form |
| Serial.LineBreak | serial.c:155-159 | a line break is sent on the twentieth note |
| Serial.SerialPort.OutputChar | serial.c:64-82 | a byte is queued if there is room and dropped otherwise; the queue is Fill of the old queue with that byte |
| Serial.SerialPort.OutputString | serial.c:90-99 | the string's bytes before NUL are offered to the queue in order and the transmit interrupt is enabled; the line counter and the bytes already sent are unchanged (AfterString) |
| Serial.SerialPort.NoteStringTimeDetect | serial.c:108-118 | the upper-case text is queued while the beat count is in 450..498 or 0..50 (49 ticks before the beat to 50 after it), the lower-case text otherwise |
| Serial.SerialPort.OutputNoteName | serial.c:130-151 | the note's name (or nothing) is queued |
| Serial.SerialPort.OutputNote | serial.c:126-161 | the note's name and, every twentieth call, a line break are queued, the line counter advances modulo 20 and the transmit interrupt is enabled when anything was queued (AfterNote) |
| Serial.SerialPort.TransmitReady | serial.c:167-198 | with bytes queued, the oldest is sent and removed. With none, the interrupt, which runs only while enabled, turns itself off |
| Serial.SerialPort.constructor | serial.c:30-33 | the queue starts empty at insert position 0 with the line counter at 0, and the transmit interrupt starts enabled as `setup_serial` leaves it |
| Press.PressNote | timer2.c:51-59 | the note becomes n and is started (silenced above 7) with the generator reset as `start_note` does; the note's name is queued and the line counter advances. The synthesiser's whole state is AfterPress and the serial line's AfterNote of the old ones |
| Playback.Zip | playback.c:11-13 | entry i pairs note_buffer[i] with time_buffer[i] |
| Playback.PlaybackStepSpec | playback.c:141-188 | a step plays an entry only if there is one; the entry played is the newest, it leaves the buffer, and playback goes idle exactly when it was the last. Only the buffer, the counter, the note space, `tuneWait` and the recording tick counter can change |
| Playback.DueStep | playback.c:157-186 | an entry is played only while playing; it is the newest, it leaves the buffer, and playback goes idle exactly when it was the last. Only the buffer, the counter, the note space and `tuneWait` can change |
| Playback.Consumed | playback.c:162-181 | consuming plays the newest entry and removes it; playback goes idle exactly when it was the last entry |
| Playback.LastNoteKeepsPlaybackPitch | playback.c:169-180 | the last note of a playback sounds with the compare value of the playback's octave and waveform, while the synthesiser is left with the saved octave and waveform |
| Playback.PlayedRestSilences | playback.c:169-171 | a played entry whose note is above 7 (the demo tune's rests) silences the synthesiser |
| Playback.DemoTuneEntries | playback.c:122-123 | the demo tune adds 16 entries: the twinkle notes, with time 50 on the first and 0 on every other (the `{50}` initialiser) |
| Playback.TuneWaitStaysInDomain | playback.c:21-22 | `tuneWait` only ever holds 0, 1 or 255 |
| Playback.RecordingOnlyCounts | playback.c:144-147 | while recording and idle, a step only advances the 16-bit tick counter |
| Playback.LeavesWaitOnRecordedBeat | playback.c:150-152 | an armed playback starts exactly on the tick whose beat count equals the recorded beat, and does nothing before |
| Playback.PlaysTheLastEntry | playback.c:157-182 | when the count reaches the note space the newest entry is played and removed. Then the next wait is (time*10) mod 256, or playback goes idle after the last entry |
| Playback.NotesLastFirst | playback.c:165-167 | the notes of the entries in reverse order |
| Playback.RunSplit | playback.c:141-188 | running two lists of ticks one after the other is running their concatenation |
| Playback.CountsUpToSpace | playback.c:160 | below the note space, ticks only count up |
| Playback.PlaysOutInReverse | playback.c:141-188 | a running playback plays every entry, last recorded first, and then goes idle with an empty buffer, in exactly Duration ticks whatever the beat counter does |
| Playback.Sequencer.constructor | playback.c:10-31 | the static initialisers: empty buffer with 111 in slot 0, idle, not recording |
| Playback.Sequencer.BufferNote | playback.c:50-61 | with a free slot the pair is stored in it and the count grows by one; with 24 stored nothing changes |
| Playback.Sequencer.PlayBuffer | playback.c:34-47 | playback waits for the beat with time_buffer[0] as note space; the recorded octave and waveform take effect and the current ones are saved; nothing else changes (ArmedPlayer, ArmedSynth) |
| Playback.Sequencer.BufferUntilSentinel | playback.c:72-74 | every (note, time) pair before the first 111 is appended, up to the capacity |
| Playback.Sequencer.BufferSong | playback.c:64-79 | the song's entries are appended and playback is armed |
| Playback.Sequencer.RecordStart | playback.c:82-91 | the buffer is emptied; the waveform, beat (as `uint16_t`) and octave are remembered and recording starts; nothing else changes |
| Playback.Sequencer.RecordStop | playback.c:93-97 | recording stops and nothing else changes |
| Playback.Sequencer.RecordNote | playback.c:99-107 | the pair is appended, and recording stops once the buffer is full; no caller in the firmware reaches it (`recNote` uses `buffer_note`) |
| Playback.Sequencer.DemoTuneStart | playback.c:118-135 | while recording nothing changes. Otherwise the demo tune is appended and armed for beat 0 in the lower octave with the current waveform, saving the current octave and waveform (DemoPlayer, DemoSynth) |
| Playback.Sequencer.TakeLast | playback.c:163-166 | the newest pair is read and the count drops by one, removing exactly that entry |
| Playback.Sequencer.ScheduleNext | playback.c:173-181 | with entries left the next note space is (t*10) mod 256 and the counter restarts; otherwise playback goes idle and the saved octave and waveform return |
| Playback.Sequencer.PlayLast | playback.c:162-182 | the sequencer becomes Consumed of the old one; the synthesiser plays the entry through `pressNote` and, after the last one, takes the saved octave and waveform (PlayedSynth); the line gets its name (PlayedLine) |
| Playback.Sequencer.PlayDueEntry | playback.c:160-182 | on the due tick the newest entry is played as DueStep states, for the sequencer, the synthesiser and the serial line |
| Playback.Sequencer.PlayDue | playback.c:157-186 | the sequencer's state becomes DueStep of the old one; the synthesiser and serial line change as PlayedSynth and PlayedLine state, and not at all when nothing is played |
| Playback.Sequencer.PlaybackStep | playback.c:141-188 | the sequencer's state becomes PlaybackStepSpec of the old one; the synthesiser and serial line change as PlayedSynth and PlayedLine state, and not at all when nothing is played; a dormant sequencer stays dormant |
| Timer2.LowestBit | timer2.c:98-104 | the lowest button down in a nonzero sample: held, with no lower button held |
| Timer2.ScanLowestBit | timer2.c:109-115 | the scan finds a button exactly when the mask is nonzero, and the one it finds is the lowest |
| Timer2.ResolveEdge | timer2.c:86-117 | a press event names a button 0..7 |
| Timer2.ButtonEvent | timer2.c:86 | buttons produce no event unless a playback runs; silence exactly when playing and the sample drops to zero from nonzero; a press names a button 0..7 |
| Timer2.ButtonSynth | timer2.c:89-116 | silence stops the note and clears it; a press starts that button's note (compare value of its Period); no event changes nothing; octave, waveform and step count never change |
| Timer2.NoteAfter | timer2.c:89-116 | `note` is unchanged with no event, 255 on silence and the button on a press |
| Timer2.RecordEdge | timer2.c:63-69 | while recording, a press appends (button, ticks mod 256) and restarts the tick counter; otherwise nothing changes |
| Timer2.SteadyButtonsAreQuiet | timer2.c:86 | an unchanged sample produces no event |
| Timer2.AllUpSilences | timer2.c:89-94 | the note is silenced exactly when the sample drops to zero from nonzero |
| Timer2.OnePressPlaysIt | timer2.c:107-116 | pressing one more button plays exactly that button |
| Timer2.ReleasePlaysLowestHeld | timer2.c:96-105 | a fall to a nonzero sample plays the lowest button still held |
| Timer2.SimultaneousPressLowestWins | timer2.c:109-115 | two buttons pressed in the same tick play only the lower one |
| Timer2.RiseCanReportReleasedButton | timer2.c:107-116 | a rise that also releases a button can play the released button (0b001 to 0b110 plays button 0) |
| Timer2.RecNote | timer2.c:63-69 | the sequencer's state becomes RecordEdge of the old state for a press |
| Timer2.PlayButton | timer2.c:100-101 | the button's note sounds (AfterPress, timer running with its Period), its name is queued (AfterNote) and it is recorded (RecordEdge) |
| Timer2.PlayChange | timer2.c:96-116 | the scan of a changed nonzero sample finds the button ResolveEdge picks; it is played and recorded (AfterPress, AfterNote, RecordEdge) |
| Timer2.Ticker.HandleButtons | timer2.c:86-117 | the sequencer, synthesiser and serial line become RecordEdge, ButtonSynth and ButtonLine of ButtonEvent: silence quiets the synthesiser and clears the note without output, a press plays, names and records a button, and otherwise nothing changes |
| Timer2.Ticker.constructor | timer2.c:20-21 | no button down before the first tick and the digit select at 0 |
| Timer2.Ticker.Tick | timer2.c:72-130 | one tick: the button event (ButtonSynth, ButtonLine, RecordEdge); the second sample becomes the previous one; the digit for the new note is shown and the digit select flips; the beat advances and PORTE gets the LED bit; the sequencer steps (PlaybackStepSpec) and a played entry sounds in the octave then in force (PlayedSynth, PlayedLine). A dormant sequencer stays dormant and nothing sounds or is sent |
| Commands.LowerCaseIgnored | serial.c:219-223 | a lower-case letter runs no command |
| Commands.RecordAndPlayExclude | serial.c:260-277 | playback never starts while recording, and recording is never toggled nor playback started while playback is armed or running |
| Commands.StepsStayInRange | serial.c:242-251 | the triangle step count moves by one and stays within 4..16 |
| Commands.DemoOnlyWhilePlaying | serial.c:236-239 | the demo tune is accepted exactly on 'D' while a playback runs |
| Commands.Reply | serial.c:236-277 | command replies contain no NUL, so they are sent whole |
| Commands.Dispatch | serial.c:219-277 | each command is selected only on its letter and guard: T and S only when not recording, D only while playing, < above 4 steps, > below 16, U only when not recording, R only while idle, P only when not recording, idle and with entries; a lower-case letter selects nothing |
| Commands.SynthActed | serial.c:226-257 | T and S toggle the waveform and restart the note; < and > move the step count by one; U flips the octave; the note is kept and, except for a toggle, the compare value and timer are untouched |
| Commands.RecordToggled | playback.c:82-97 | R stops a running recording keeping the buffer and recorded settings, or starts one with an empty buffer and the current beat, waveform and octave; playback state is untouched |
| Commands.SynthOfPlayer | serial.c:236-277 | D, R and P change at most the octave and waveform; R changes nothing and D while recording changes nothing |
| Commands.LineActed | serial.c:236-277 | a command queues exactly its reply, leaving the line counter and sent bytes alone |
| Commands.Received | serial.c:206-279 | a lower-case letter changes nothing; recording only toggles while idle; while recording the octave, waveform and note stay put; < with more than 4 steps (> with fewer than 16) changes only the step count, by one; a dormant sequencer stays dormant |
| Commands.DemoReplacesSavedSettings | playback.c:40-44 | 'D' during a playback arms the demo tune for beat 0 in the lower octave and saves the playback's octave and waveform as the ones to restore |
| Commands.Receive | serial.c:206-279 | the action is Dispatch of the old state and the new sequencer, synthesiser and serial line are Received of the old ones; an ignored character changes nothing, a synthesiser command leaves the sequencer alone and a dormant sequencer stays dormant |
| Commands.SynthCommand | serial.c:226-257 | the synthesiser becomes SynthActed and the serial line LineActed of the old ones; only U touches the serial port |
| Commands.StepCommand | serial.c:242-251 | the step count moves down or up by one and nothing else changes (SynthActed) |
| Commands.OctaveCommand | serial.c:254-257 | the octave flips and "-OctaveToggle-" is queued (SynthActed, LineActed) |
| Commands.SequencerCommand | serial.c:236-277 | the sequencer, synthesiser and serial line become PlayerActed, SynthOfPlayer and LineActed of the old ones: D arms the demo tune unless recording, R toggles recording, P arms playback; each is announced |
| Commands.DemoCommand | serial.c:236-239 | the sequencer and synthesiser change as demoTuneStart does (DemoPlayer, DemoSynth, so nothing while recording) and "-DemoTune-" is queued |
| Commands.RecordCommand | serial.c:260-268 | recording toggles as RecordToggled states and the matching message is queued |
| Commands.PlaybackCommand | serial.c:271-277 | playback is armed as ArmedPlayer and ArmedSynth state, with time_buffer[0] as first note space, and "-playbackStart-" is queued |
| Commands.Send | serial.c:90-99 | a NUL-free message is queued whole, up to capacity, with the transmit interrupt enabled |

## Left out

- D/A converter: `d2a_output` (the SPI transfer in `d2a.c`) is modelled as a log `samples` of the bytes it is given.
- Hardware registers are fields of the classes:
  - `timerControl` stands for TCCR1B and `compare` for OCR1A.
  - `udrie` stands for the UDRIE0 bit of UCSR0B and `sent` for the bytes written to UDR0.
  - `portC` is the display port and `port` is PORTE.
  - The button port PINA and the receive register UDR0 are method parameters.
- Setup routines (`setup_*`), `main.c`'s main loop and the global interrupt enable are not part of this model. The constructors give the state after reset, except that the `Serial.SerialPort` constructor starts with the transmit interrupt enabled, as `setup_serial` leaves it (serial.c:55).
- Preemption: each interrupt handler is one atomic method, and interleavings inside a handler are not modelled.
- `amplitude` is a `float` in the firmware and an exact `real` here. IEEE rounding of `256.0/triWaveSteps` and of `round()` is not modelled.
- `notebuffer_clear()` is called by `record_start` but defined nowhere. It is modelled as emptying the note buffer (count := 0).
- `pressNote()` is called with no argument at playback.c:171. It is modelled as `pressNote(n)` with the note just read.
- The tick reads PINA twice (timer2.c:79 and timer2.c:119). The second read is a separate input `resample`.
- `Playback.Sequencer.BufferSong`: the `uint8_t` index of `buffer_song` would wrap after 255 elements. The model requires the sentinel to be in the song, which is true of the demo tune, and does not model that wrap.
- `Playback.PlaysOutInReverse`: stated for a playback whose tick count has not passed the note space. A count already above it would wrap at 256 first, and that case is not covered.
- `Serial.SerialPort.OutputString`: takes the string without its terminator. The `unsigned char` index would loop forever on a string longer than 255 bytes, and no string in the firmware is that long.
