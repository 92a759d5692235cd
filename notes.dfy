/** The waveform synthesiser (notes.c): the note timer's period and the per-sample
    amplitude step for square, triangle and sine waves. */
module Notes {
  import opened Bytes

  /** Timer-1 clock counts for one period of each note C4..C5 at 8 MHz. */
  const NoteClocks: seq<int> := [15287, 13620, 12133, 11452, 10203, 9089, 8098, 7643]

  /** Amplitudes of a 32-step sine wave. */
  const SinAmplitude: seq<u8> := [128, 176, 218, 246, 255, 246, 218, 176, 128, 79, 37, 9, 0, 9, 37, 79,
                                  127, 176, 218, 246, 255, 246, 218, 176, 128, 79, 37, 9, 0, 9, 37, 79]

  const Square: u8 := 0
  const Triangle: u8 := 1
  const Sine: u8 := 2

  /** TCCR1B when the note timer runs: clear on compare match (WGM12, bit 3), system clock (CS10, bit 0). */
  const TimerRun: u8 := 0x09

  /** The bounds that the serial commands keep `triWaveSteps` within. */
  const MinTriSteps: int := 4
  const MaxTriSteps: int := 16

  /** Samples per half period: the triangle's step count, 16 for sine, 1 for square
      (and for any other waveform number). */
  function StepsPerHalfPeriod(waveform: u8, triWaveSteps: u8): int
  {
    if waveform == Triangle then triWaveSteps else if waveform == Sine then 16 else 1
  }

  function OctaveDivisor(octave: u8): int
  {
    if octave == 1 then 2 else 1
  }

  /** The compare value that `start_note` writes to OCR1A, or None when the note is out of
      range (it then silences instead). Integer division as in C; the final decrement is
      on a `uint16_t` and would wrap at 0. */
  function Period(note: u8, waveform: u8, triWaveSteps: u8, octave: u8): (r: Option<u16>)
    requires waveform == Triangle ==> triWaveSteps > 0
    ensures r.None? <==> note > 7
  {
    if note > 7 then None
    else
      var c0 := NoteClocks[note];
      var c1 := if waveform == Triangle then c0 / triWaveSteps else c0;
      var c2 := if waveform == Sine then c1 / 16 else c1;
      var c3 := if octave == 1 then c2 / 2 else c2;
      Some((c3 - 1) % 65536)
  }

  /** With the step count within the bounds the commands keep, the decrement never wraps:
      one timer period times the number of timer periods per note period brackets the
      note's clock count, so the period is the table value divided out, rounded down. */
  lemma {:induction false} PeriodBrackets(note: u8, waveform: u8, triWaveSteps: u8, octave: u8)
    requires note <= 7
    requires waveform == Triangle ==> MinTriSteps <= triWaveSteps <= MaxTriSteps
    ensures var d := StepsPerHalfPeriod(waveform, triWaveSteps) * OctaveDivisor(octave);
            var p := Period(note, waveform, triWaveSteps, octave).value;
            0 <= p && (p + 1) * d <= NoteClocks[note] < (p + 2) * d
  {
    var c0 := NoteClocks[note];
    var s := StepsPerHalfPeriod(waveform, triWaveSteps);
    var o := OctaveDivisor(octave);
    assert 1 <= s <= 16 && 1 <= o <= 2;
    assert 7643 <= c0;
    DivDiv(c0, s, o);
    var q := c0 / (s * o);
    assert q * (s * o) <= c0 < (q + 1) * (s * o);
    assert q >= 238 by {
      assert s * o <= 32;
      DivLowerBound(c0, s * o);
    }
    assert Period(note, waveform, triWaveSteps, octave).value == q - 1;
  }

  lemma DivDiv(a: int, s: int, o: int)
    requires a >= 0 && s >= 1 && o >= 1
    ensures a / s / o == a / (s * o)
    ensures (a / (s * o)) * (s * o) <= a < (a / (s * o) + 1) * (s * o)
  {
    var q1 := a / s;
    var q2 := q1 / o;
    assert q1 * s <= a < q1 * s + s;
    assert q2 * o <= q1 < q2 * o + o;
    assert q2 * o * s <= q1 * s;
    assert (q1 + 1) * s <= (q2 * o + o) * s;
    assert q2 * (s * o) <= a < (q2 + 1) * (s * o);
    DivUnique(a, s * o, q2);
  }

  lemma DivUnique(a: int, d: int, q: int)
    requires d >= 1 && q * d <= a < (q + 1) * d
    ensures a / d == q
  {
    var r := a / d;
    assert a == d * r + a % d && 0 <= a % d < d;
    if r > q {
      MulMono(q + 1, r, d);
    } else if r < q {
      MulMono(r + 1, q, d);
    }
  }

  lemma MulMono(x: int, y: int, d: int)
    requires x <= y && d >= 0
    ensures x * d <= y * d
  {
  }

  lemma DivLowerBound(a: int, d: int)
    requires 7643 <= a && 1 <= d <= 32
    ensures a / d >= 238
  {
    assert 238 * d <= 7616 <= a;
  }

  /** The waveform after `set_waveform(w)`: w, unless it is already selected, in which case square. */
  function ToggledWaveform(waveform: u8, w: u8): (r: u8)
    ensures r == w || r == Square
    ensures r == w <==> waveform != w || w == Square
  {
    if waveform != w then w else Square
  }

  /** Selecting the same waveform twice restores the original, from square or from w. */
  lemma ToggleTwice(waveform: u8, w: u8)
    requires waveform == Square || waveform == w
    ensures ToggledWaveform(ToggledWaveform(waveform, w), w) == waveform
  {
  }

  /** One square-wave sample: flip the amplitude about the middle of [0, 255]. */
  function SquareStep(a: real): (r: real)
    requires 0.0 <= a <= 255.0
    ensures 0.0 <= r <= 255.0
    ensures r + a == 255.0
  {
    255.0 - a
  }

  /** Two square-wave samples bring the amplitude back. */
  lemma SquareStepTwice(a: real)
    requires 0.0 <= a <= 255.0
    ensures SquareStep(SquareStep(a)) == a
  {
  }

  /** One triangle-wave sample: step 256/steps towards the current end; clamp to 255 and
      turn down above 254, clamp to 0 and turn up below 1. Returns (amplitude, upWave). */
  function TriangleStep(a: real, upWave: u8, steps: u8): (r: (real, u8))
    requires steps > 0
    ensures 0.0 <= r.0 <= 255.0
    ensures var moved := if upWave == 1 then a + 256.0 / steps as real else a - 256.0 / steps as real;
            (moved < 1.0 ==> r == (0.0, 1)) &&
            (1.0 <= moved <= 254.0 ==> r == (moved, upWave)) &&
            (254.0 < moved ==> r == (255.0, 0))
  {
    var a1 := if upWave == 1 then a + 256.0 / steps as real else a - 256.0 / steps as real;
    var (a2, u2) := if a1 > 254.0 then (255.0, 0) else (a1, upWave);
    if a2 < 1.0 then (0.0, 1) else (a2, u2)
  }

  /** One sine-wave sample: advance the table position modulo 32 and read the table.
      Returns (position, amplitude). */
  function SineStep(step: u8): (r: (u8, real))
    requires step < 32
    ensures r.0 < 32 && r.0 == (step + 1) % 32
    ensures r.1 == SinAmplitude[r.0] as real && 0.0 <= r.1 <= 255.0
  {
    var next := if step + 1 >= 32 then 0 else step + 1;
    (next, SinAmplitude[next] as real)
  }

  /** `round()` of a non-negative amplitude, converted to the byte sent to the D/A converter. */
  function Round(a: real): (b: u8)
    requires 0.0 <= a <= 255.0
    ensures b as real - 0.5 <= a < b as real + 0.5
  {
    (a + 0.5).Floor
  }

  /** The globals of notes.c, as one value. */
  datatype SynthState = SynthState(waveform: u8, upWave: u8, sinWaveStep: u8, amplitude: real, note: u8,
                                   triWaveSteps: u8, octave: u8, timerControl: u8, compare: u16,
                                   samples: seq<u8>)

  /** `quiet`: the note timer stopped and the generator reset to the start of a rising wave. */
  function Quieted(s: SynthState): SynthState
  {
    s.(timerControl := 0, amplitude := 0.0, upWave := 1, sinWaveStep := 0)
  }

  /** `start_note`: the timer programmed for the current note, or, without one, `quiet`. */
  function Started(s: SynthState): SynthState
    requires s.triWaveSteps > 0
  {
    match Period(s.note, s.waveform, s.triWaveSteps, s.octave)
    case None => Quieted(s)
    case Some(p) => s.(compare := p, timerControl := TimerRun)
  }

  /** `set_waveform(w)`: quiet, toggle the waveform, start the current note again. */
  function Toggled(s: SynthState, w: u8): SynthState
    requires s.triWaveSteps > 0
  {
    Started(Quieted(s).(waveform := ToggledWaveform(s.waveform, w)))
  }

  /** The globals of notes.c. `timerControl` stands for TCCR1B, `compare` for OCR1A and
      `samples` for the bytes handed to the D/A converter, oldest first. */
  class Synth {
    var waveform: u8
    var upWave: u8
    var sinWaveStep: u8
    var amplitude: real
    var note: u8
    var triWaveSteps: u8
    var octave: u8
    var timerControl: u8
    var compare: u16
    var samples: seq<u8>

    ghost predicate Valid()
      reads this
    {
      && 0.0 <= amplitude <= 255.0
      && sinWaveStep < 32
      && MinTriSteps <= triWaveSteps <= MaxTriSteps
      && octave <= 1
    }

    ghost function State(): SynthState
      reads this
    {
      SynthState(waveform, upWave, sinWaveStep, amplitude, note, triWaveSteps, octave, timerControl, compare, samples)
    }

    constructor ()
      ensures Valid()
      ensures waveform == Square && upWave == 1 && sinWaveStep == 0 && amplitude == 0.0
      ensures note == 255 && triWaveSteps == 8 && octave == 0
      ensures timerControl == 0 && compare == 0 && samples == []
    {
      waveform, upWave, sinWaveStep, amplitude := Square, 1, 0, 0.0;
      note, triWaveSteps, octave := 255, 8, 0;
      timerControl, compare, samples := 0, 0, [];
    }

    /** `quiet`: stop the note timer and reset the waveform generator. */
    method Quiet()
      requires Valid()
      modifies this
      ensures Valid()
      ensures timerControl == 0 && amplitude == 0.0 && upWave == 1 && sinWaveStep == 0
      ensures waveform == old(waveform) && note == old(note) && triWaveSteps == old(triWaveSteps)
      ensures octave == old(octave) && compare == old(compare) && samples == old(samples)
      ensures State() == Quieted(old(State()))
    {
      timerControl := 0;
      amplitude := 0.0;
      upWave := 1;
      sinWaveStep := 0;
    }

    /** `start_note`: program the timer for the current note, or silence when there is none. */
    method StartNote()
      requires Valid()
      modifies this
      ensures Valid()
      ensures note <= 7 ==>
        && compare == Period(note, waveform, triWaveSteps, octave).value
        && timerControl == TimerRun
        && amplitude == old(amplitude) && upWave == old(upWave) && sinWaveStep == old(sinWaveStep)
      ensures note > 7 ==>
        && timerControl == 0 && compare == old(compare)
        && amplitude == 0.0 && upWave == 1 && sinWaveStep == 0
      ensures waveform == old(waveform) && note == old(note) && triWaveSteps == old(triWaveSteps)
      ensures octave == old(octave) && samples == old(samples)
      ensures State() == Started(old(State()))
    {
      var p := Period(note, waveform, triWaveSteps, octave);
      if p.Some? {
        compare := p.value;
        timerControl := TimerRun;
      } else {
        Quiet();
      }
    }

    /** `set_waveform`: silence, toggle the waveform, restart the current note. */
    method SetWaveform(w: u8)
      requires Valid()
      modifies this
      ensures Valid()
      ensures waveform == ToggledWaveform(old(waveform), w)
      ensures note <= 7 ==>
        compare == Period(note, waveform, triWaveSteps, octave).value && timerControl == TimerRun
      ensures note > 7 ==> timerControl == 0 && compare == old(compare)
      ensures amplitude == 0.0 && upWave == 1 && sinWaveStep == 0
      ensures note == old(note) && triWaveSteps == old(triWaveSteps)
      ensures octave == old(octave) && samples == old(samples)
      ensures State() == Toggled(old(State()), w)
    {
      Quiet();
      waveform := ToggledWaveform(waveform, w);
      StartNote();
    }

    /** The note timer's compare interrupt: compute one sample and hand it to the D/A converter.
        A waveform number other than 0, 1, 2 leaves the amplitude as it is. */
    method SampleStep()
      requires Valid()
      modifies this
      ensures Valid()
      ensures waveform == Square ==>
        amplitude == SquareStep(old(amplitude)) && upWave == old(upWave) && sinWaveStep == old(sinWaveStep)
      ensures waveform == Triangle ==>
        (amplitude, upWave) == TriangleStep(old(amplitude), old(upWave), triWaveSteps)
        && sinWaveStep == old(sinWaveStep)
      ensures waveform == Sine ==>
        (sinWaveStep, amplitude) == SineStep(old(sinWaveStep)) && upWave == old(upWave)
      ensures waveform > Sine ==>
        amplitude == old(amplitude) && upWave == old(upWave) && sinWaveStep == old(sinWaveStep)
      ensures samples == old(samples) + [Round(amplitude)]
      ensures waveform == old(waveform) && note == old(note) && triWaveSteps == old(triWaveSteps)
      ensures octave == old(octave) && timerControl == old(timerControl) && compare == old(compare)
    {
      if waveform == Square {
        amplitude := SquareStep(amplitude);
      } else if waveform == Triangle {
        var t := TriangleStep(amplitude, upWave, triWaveSteps);
        amplitude, upWave := t.0, t.1;
      } else if waveform == Sine {
        var s := SineStep(sinWaveStep);
        sinWaveStep, amplitude := s.0, s.1;
      }
      samples := samples + [Round(amplitude)];
    }
  }
}
