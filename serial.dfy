/** The serial transmit side (serial.c): a 64-byte circular queue filled by the application
    and drained one byte per "transmit register empty" interrupt, and the note-name text. */
module Serial {
  import opened Bytes
  import opened Segment

  const Capacity: int := 64

  /** Notes per output line before a line break is sent. */
  const NotesPerLine: int := 20

  const Nul: char := '\0'
  const Newline: seq<char> := "\r\n"

  /** The bytes waiting in a circular buffer: the `count` slots just before `insertPos`, oldest first. */
  function RingView(buf: seq<char>, insertPos: int, count: int): (q: seq<char>)
    requires |buf| == Capacity && 0 <= insertPos < Capacity && 0 <= count <= Capacity
    ensures |q| == count
    ensures forall k :: 0 <= k < count ==> q[k] == buf[(insertPos - count + k) % Capacity]
  {
    seq(count, k requires 0 <= k < count => buf[(insertPos - count + k) % Capacity])
  }

  /** Writing at the insert position and advancing it appends one byte to the queue. */
  lemma RingViewPush(buf: seq<char>, insertPos: int, count: int, c: char)
    requires |buf| == Capacity && 0 <= insertPos < Capacity && 0 <= count < Capacity
    ensures RingView(buf[insertPos := c], (insertPos + 1) % Capacity, count + 1) == RingView(buf, insertPos, count) + [c]
  {
    var q := RingView(buf, insertPos, count);
    var r := RingView(buf[insertPos := c], (insertPos + 1) % Capacity, count + 1);
    forall k | 0 <= k <= count
      ensures r[k] == (q + [c])[k]
    {
      if k < count {
        assert ((insertPos + 1) % Capacity - (count + 1) + k) % Capacity == (insertPos - count + k) % Capacity;
      }
    }
  }

  /** Dropping the oldest byte: its slot is `count` places before the insert position. */
  lemma RingViewPop(buf: seq<char>, insertPos: int, count: int)
    requires |buf| == Capacity && 0 <= insertPos < Capacity && 0 < count <= Capacity
    ensures RingView(buf, insertPos, count)[0] == buf[(insertPos - count) % Capacity]
    ensures RingView(buf, insertPos, count - 1) == RingView(buf, insertPos, count)[1..]
  {
    var q := RingView(buf, insertPos, count);
    var r := RingView(buf, insertPos, count - 1);
    forall k | 0 <= k < count - 1
      ensures r[k] == q[k + 1]
    {
      assert insertPos - (count - 1) + k == insertPos - count + (k + 1);
    }
  }

  /** The characters of a C string: everything before the first NUL. */
  function CString(s: seq<char>): (r: seq<char>)
    ensures |r| <= |s| && r == s[..|r|]
    ensures Nul !in r
    ensures |r| < |s| ==> s[|r|] == Nul
  {
    if s == [] || s[0] == Nul then [] else [s[0]] + CString(s[1..])
  }

  /** A prefix without NUL that ends at the end of s or at a NUL is the C string of s. */
  lemma {:induction false} CStringAt(s: seq<char>, i: nat)
    requires i <= |s| && Nul !in s[..i]
    requires i == |s| || s[i] == Nul
    ensures CString(s) == s[..i]
  {
    if i > 0 {
      assert s[0] == s[..i][0];
      assert Nul !in s[1..][..i - 1] by {
        assert s[1..][..i - 1] == s[..i][1..];
      }
      CStringAt(s[1..], i - 1);
      assert s[..i] == [s[0]] + s[1..][..i - 1];
    } else if s != [] {
      assert s[0] == Nul;
    }
  }

  /** `noteStringTimeDetect` sends the upper-case name near the beat: while the beat count
      is in 450..498 or 0..50, that is from 49 ticks before it to 50 ticks after it. */
  predicate UpperCaseWindow(beatCount: int)
  {
    beatCount >= 450 || beatCount <= 50
  }

  /** The upper- and lower-case texts that `output_note` sends for a note, or None for a
      note that has no name (above 7) or an octave other than 0 and 1. */
  function NoteText(note: u8, octave: u8): (r: Option<(seq<char>, seq<char>)>)
    ensures r.Some? <==> note <= 7 && octave <= 1
    ensures r.Some? ==>
      && r.value.0 == [' ', PitchLetter(note), Digit(PitchOctave(note, octave))]
      && r.value.1 == [' ', LowerCase(PitchLetter(note)), Digit(PitchOctave(note, octave))]
  {
    if octave == 0 then
      match note
      case 0 => Some((" C4", " c4"))
      case 1 => Some((" D4", " d4"))
      case 2 => Some((" E4", " e4"))
      case 3 => Some((" F4", " f4"))
      case 4 => Some((" G4", " g4"))
      case 5 => Some((" A4", " a4"))
      case 6 => Some((" B4", " b4"))
      case 7 => Some((" C5", " c5"))
      case _ => None
    else if octave == 1 then
      match note
      case 0 => Some((" C5", " c5"))
      case 1 => Some((" D5", " d5"))
      case 2 => Some((" E5", " e5"))
      case 3 => Some((" F5", " f5"))
      case 4 => Some((" G5", " g5"))
      case 5 => Some((" A5", " a5"))
      case 6 => Some((" B5", " b5"))
      case 7 => Some((" C6", " c6"))
      case _ => None
    else None
  }

  /** The character of a decimal digit. */
  function Digit(k: int): char
    requires 0 <= k <= 9
  {
    ('0' as int + k) as char
  }

  /** The lower-case form of an upper-case ASCII letter. */
  function LowerCase(c: char): char
    requires 'A' <= c <= 'Z'
  {
    (c as int + 32) as char
  }

  /** The text `output_note` queues for a note: its name in the case that the beat
      position selects, or nothing. */
  function NoteName(note: u8, octave: u8, beatCount: int): (t: seq<char>)
    ensures CString(t) == t
    ensures |t| == if NoteText(note, octave).Some? then 3 else 0
  {
    match NoteText(note, octave)
    case None => []
    case Some(texts) =>
      var t := if UpperCaseWindow(beatCount) then texts.0 else texts.1;
      CStringAt(t, |t|);
      t
  }

  /** The line break `output_note` queues when the call count reaches 20. */
  function LineBreak(noteLines: u8): (t: seq<char>)
    ensures CString(t) == t
  {
    CStringAt(Newline, |Newline|);
    if noteLines + 1 == NotesPerLine then Newline else []
  }

  /** What the rest of the firmware sees of serial.c: the queued bytes, the note counter,
      the transmit interrupt enable and the bytes sent. */
  datatype LineState = LineState(queue: seq<char>, noteLines: u8, udrie: bool, sent: seq<char>)

  /** `output_string(text)`: the transmit interrupt enabled and the text before NUL offered to the queue. */
  function AfterString(l: LineState, text: seq<char>): LineState
    requires |l.queue| <= Capacity
  {
    l.(queue := Fill(l.queue, CString(text), Capacity), udrie := true)
  }

  /** `output_note`: the note's name and, on every twentieth note, a line break offered to the
      queue; the interrupt is enabled when either is sent. */
  function AfterNote(l: LineState, note: u8, octave: u8, beatCount: int): LineState
    requires |l.queue| <= Capacity && l.noteLines < NotesPerLine
  {
    LineState(Fill(l.queue, NoteName(note, octave, beatCount) + LineBreak(l.noteLines), Capacity),
              (l.noteLines + 1) % NotesPerLine,
              l.udrie || NoteText(note, octave).Some? || l.noteLines + 1 == NotesPerLine,
              l.sent)
  }

  /** The globals of serial.c. `udrie` stands for the UDRIE0 bit of UCSR0B (the transmit
      interrupt enable) and `sent` for the bytes written to UDR0, oldest first. */
  class SerialPort {
    var buffer: array<char>
    var insertPos: u8
    var count: u8
    var noteLines: u8
    var udrie: bool
    var sent: seq<char>

    ghost predicate Valid()
      reads this
    {
      buffer.Length == Capacity && insertPos < Capacity && count <= Capacity && noteLines < NotesPerLine
    }

    /** The bytes waiting to be sent, oldest first. */
    ghost function Queue(): seq<char>
      reads this, buffer
      requires Valid()
    {
      RingView(buffer[..], insertPos, count)
    }

    ghost function State(): (l: LineState)
      reads this, buffer
      requires Valid()
      ensures |l.queue| <= Capacity && l.noteLines < NotesPerLine
    {
      LineState(Queue(), noteLines, udrie, sent)
    }

    /** The state after reset and `setup_serial` (which enables the transmit interrupt). */
    constructor ()
      ensures Valid() && fresh(buffer)
      ensures insertPos == 0 && count == 0 && noteLines == 0 && udrie && sent == []
      ensures Queue() == []
    {
      buffer := new char[Capacity];
      insertPos, count, noteLines := 0, 0, 0;
      udrie := true;
      sent := [];
    }

    /** `output_char`: queue one byte if there is room, otherwise drop it. */
    method OutputChar(c: char)
      requires Valid()
      modifies this, buffer
      ensures Valid() && buffer == old(buffer)
      ensures old(count) < Capacity ==>
        && buffer[old(insertPos)] == c
        && count == old(count) + 1
        && insertPos == (old(insertPos) + 1) % Capacity
      ensures old(count) == Capacity ==> count == old(count) && insertPos == old(insertPos)
      ensures Queue() == Fill(old(Queue()), [c], Capacity)
      ensures noteLines == old(noteLines) && udrie == old(udrie) && sent == old(sent)
    {
      if count < Capacity {
        RingViewPush(buffer[..], insertPos, count, c);
        buffer[insertPos] := c;
        insertPos := insertPos + 1;
        count := count + 1;
        if insertPos == Capacity {
          insertPos := 0;
        }
      }
    }

    /** `output_string`: enable the transmit interrupt, then queue each byte before the NUL. */
    method OutputString(s: seq<char>)
      requires Valid()
      modifies this, buffer
      ensures Valid() && buffer == old(buffer)
      ensures Queue() == Fill(old(Queue()), CString(s), Capacity)
      ensures udrie
      ensures noteLines == old(noteLines) && sent == old(sent)
      ensures State() == AfterString(old(State()), s)
    {
      ghost var q0 := Queue();
      udrie := true;
      var i := 0;
      while i < |s| && s[i] != Nul
        invariant 0 <= i <= |s|
        invariant Valid() && buffer == old(buffer)
        invariant forall j :: 0 <= j < i ==> s[j] != Nul
        invariant Queue() == Fill(q0, s[..i], Capacity)
        invariant udrie && noteLines == old(noteLines) && sent == old(sent)
      {
        OutputChar(s[i]);
        FillSnoc(q0, s[..i], s[i], Capacity);
        assert s[..i + 1] == s[..i] + [s[i]];
        i := i + 1;
      }
      CStringAt(s, i);
    }

    /** `noteStringTimeDetect`: queue the upper-case text near the beat, the lower-case one otherwise. */
    method NoteStringTimeDetect(upper: seq<char>, lower: seq<char>, beatCount: int)
      requires Valid()
      modifies this, buffer
      ensures Valid() && buffer == old(buffer)
      ensures Queue() == Fill(old(Queue()), CString(if UpperCaseWindow(beatCount) then upper else lower), Capacity)
      ensures udrie
      ensures noteLines == old(noteLines) && sent == old(sent)
    {
      if beatCount >= 450 || beatCount <= 50 {
        OutputString(upper);
        return;
      }
      OutputString(lower);
    }

    /** The `switch` of `output_note`: queue the note's name, if it has one. */
    method OutputNoteName(note: u8, octave: u8, beatCount: int)
      requires Valid()
      modifies this, buffer
      ensures Valid() && buffer == old(buffer)
      ensures Queue() == Fill(old(Queue()), NoteName(note, octave, beatCount), Capacity)
      ensures udrie == (old(udrie) || NoteText(note, octave).Some?)
      ensures noteLines == old(noteLines) && sent == old(sent)
    {
      var text := NoteText(note, octave);
      if text.Some? {
        NoteStringTimeDetect(text.value.0, text.value.1, beatCount);
      } else {
        assert old(Queue()) + [] == old(Queue());
      }
    }

    /** `output_note`: queue the name of the note, in the case the beat position selects;
        every twentieth call also queues a line break. */
    method OutputNote(note: u8, octave: u8, beatCount: int)
      requires Valid()
      modifies this, buffer
      ensures Valid() && buffer == old(buffer)
      ensures Queue() == Fill(old(Queue()), NoteName(note, octave, beatCount) + LineBreak(old(noteLines)), Capacity)
      ensures noteLines == (old(noteLines) + 1) % NotesPerLine
      ensures udrie == (old(udrie) || NoteText(note, octave).Some? || old(noteLines) + 1 == NotesPerLine)
      ensures sent == old(sent)
      ensures State() == AfterNote(old(State()), note, octave, beatCount)
    {
      ghost var q0 := Queue();
      ghost var name := NoteName(note, octave, beatCount);
      OutputNoteName(note, octave, beatCount);
      ghost var brk := LineBreak(noteLines);
      noteLines := noteLines + 1;
      if noteLines >= NotesPerLine {
        noteLines := 0;
        OutputString(Newline);
        FillConcat(q0, name, Newline, Capacity);
      } else {
        assert name + brk == name;
      }
    }

    /** The transmit-register-empty interrupt: send the oldest queued byte, or, with nothing
        queued, flip (and so, as the interrupt only fires while it is set, clear) the enable bit.
        The wrap-around test is on C's promoted `int` values, so it never underflows. */
    method TransmitReady()
      requires Valid() && udrie
      modifies this
      ensures Valid()
      ensures old(count) > 0 ==>
        && sent == old(sent) + [old(Queue())[0]]
        && Queue() == old(Queue())[1..]
        && count == old(count) - 1
        && udrie == old(udrie)
      ensures old(count) == 0 ==>
        sent == old(sent) && Queue() == old(Queue()) && count == 0 && udrie == !old(udrie) && !udrie
      ensures insertPos == old(insertPos) && noteLines == old(noteLines)
    {
      if count > 0 {
        RingViewPop(buffer[..], insertPos, count);
        var c: char;
        if insertPos - count < 0 {
          c := buffer[insertPos - count + Capacity];
        } else {
          c := buffer[insertPos - count];
        }
        count := count - 1;
        sent := sent + [c];
      } else {
        udrie := !udrie;
      }
    }
  }
}
