/** The two-digit seven-segment display (segment.c). */
module Segment {
  import opened Bytes

  /** The port values for the glyphs C D E F G A B C 4 5 6, in that order. */
  const Segments: seq<u8> := [0xB9, 0xDE, 0xF9, 0xF1, 0xBD, 0xF7, 0xFC, 0xB9, 0x66, 0x6D, 0x7D]

  /** The note index that stands for "no note". */
  const NoNote: u8 := 255

  /** Letter name of each note index 0..7 of the octave (C major scale, C to C). */
  function PitchLetter(n: u8): (c: char)
    requires n <= 7
    ensures c in "CDEFGAB"
  {
    "CDEFGABC"[n]
  }

  /** Scientific octave number of note n: 4 or 5 in the lower octave, 5 or 6 in the upper. */
  function PitchOctave(n: u8, isUpOctave: u8): (k: int)
    requires n <= 7 && isUpOctave <= 1
    ensures 4 <= k <= 6
  {
    4 + isUpOctave + (if n == 7 then 1 else 0)
  }

  /** The segment pattern that shows character c, independently of the table's layout. */
  function Glyph(c: char): (g: u8)
  {
    match c
    case 'C' => 0xB9
    case 'D' => 0xDE
    case 'E' => 0xF9
    case 'F' => 0xF1
    case 'G' => 0xBD
    case 'A' => 0xF7
    case 'B' => 0xFC
    case '4' => 0x66
    case '5' => 0x6D
    case '6' => 0x7D
    case _ => 0
  }

  /** `noteToSegVal`: the port value for one digit of the display. The left digit shows
      the note's letter, the right digit its octave number; no note, or a note above 7,
      blanks the digit. */
  function NoteToSegVal(noteIndex: u8, isLeftChar: u8, isUpOctave: u8): (r: u8)
    requires isUpOctave <= 1
    ensures noteIndex > 7 ==> r == 0
    ensures noteIndex <= 7 ==> r != 0
    ensures noteIndex <= 7 && isLeftChar != 0 ==> r == Glyph(PitchLetter(noteIndex))
    ensures noteIndex <= 7 && isLeftChar == 0 ==> r == Glyph('0' + PitchOctave(noteIndex, isUpOctave) as char)
  {
    if noteIndex == NoNote then 0
    else if isLeftChar != 0 then
      (if noteIndex <= 7 then Segments[noteIndex] else 0)
    else if noteIndex < 7 then Segments[8 + isUpOctave]
    else if noteIndex == 7 then Segments[9 + isUpOctave]
    else 0
  }

  /** Notes 0 and 7 are both a C and show the same letter on the left digit. */
  lemma BothCsLookAlike(isUpOctave: u8)
    requires isUpOctave <= 1
    ensures NoteToSegVal(0, 1, isUpOctave) == NoteToSegVal(7, 1, isUpOctave) == 0xB9
  {
  }

  /** On the right digit the lower seven notes share one glyph, and the top C shows the next octave. */
  lemma RightDigitIsOctave(n: u8, isUpOctave: u8)
    requires n < 7 && isUpOctave <= 1
    ensures NoteToSegVal(n, 0, isUpOctave) == Segments[8 + isUpOctave]
    ensures NoteToSegVal(7, 0, isUpOctave) == Segments[9 + isUpOctave]
  {
  }

  /** PORTC, which drives the two-digit display. */
  class Display {
    var portC: u8

    constructor ()
      ensures portC == 0
    {
      portC := 0;
    }

    /** `segmentPrint`: show one digit of the note. A blank digit is written whenever there is
        no note, and otherwise the port lights up. */
    method SegmentPrint(noteIndex: u8, isLeftChar: u8, isUpOctave: u8)
      requires isUpOctave <= 1
      modifies this
      ensures portC == NoteToSegVal(noteIndex, isLeftChar, isUpOctave)
      ensures portC == 0 <==> noteIndex > 7
    {
      portC := NoteToSegVal(noteIndex, isLeftChar, isUpOctave);
    }
  }
}
