/** The thirteen pitches C4..C5 in scientific pitch notation. Each has its
    MIDI note number and a file name derived from its name, in which the
    `s` that stands for "sharp" becomes `#`. */
module Pitches {
  import opened Jvm

  datatype Pitch = C4 | Cs4 | D4 | Ds4 | E4 | F4 | Fs4 | G4 | Gs4 | A4 | As4 | B4 | C5
  {
    /** The position of the constant in its declaration. */
    function Ordinal(): (n: nat)
      ensures n < PITCH_COUNT && Values()[n] == this
    {
      match this
      case C4 => 0   case Cs4 => 1  case D4 => 2   case Ds4 => 3
      case E4 => 4   case F4 => 5   case Fs4 => 6  case G4 => 7
      case Gs4 => 8  case A4 => 9   case As4 => 10 case B4 => 11
      case C5 => 12
    }

    /** The MIDI note number each constant is declared with: one semitone
        per constant, up from middle C. */
    function Midi(): (m: int)
      ensures m == 0x3C + Ordinal()
    {
      match this
      case C4 => 0x3C  case Cs4 => 0x3D case D4 => 0x3E  case Ds4 => 0x3F
      case E4 => 0x40  case F4 => 0x41  case Fs4 => 0x42 case G4 => 0x43
      case Gs4 => 0x44 case A4 => 0x45  case As4 => 0x46 case B4 => 0x47
      case C5 => 0x48
    }

    /** `MIDICode`, the declared note number narrowed to a `byte`. The
        codes run up by one semitone from middle C (60), so none wraps. */
    function MidiCode(): (code: int)
      ensures code == 0x3C + Ordinal()
      ensures 60 <= code <= 72
    {
      ByteOf(Midi())
    }

    /** The name of the constant, as Java's `name()` gives it. */
    function Name(): string {
      match this
      case C4 => "C4"   case Cs4 => "Cs4" case D4 => "D4"   case Ds4 => "Ds4"
      case E4 => "E4"   case F4 => "F4"   case Fs4 => "Fs4" case G4 => "G4"
      case Gs4 => "Gs4" case A4 => "A4"   case As4 => "As4" case B4 => "B4"
      case C5 => "C5"
    }

    /** The name with each `s` replaced by `#`, so that a `#` marks
        exactly the sharps. */
    function Filename(): (f: string)
      ensures |f| == |Name()|
      ensures forall i :: 0 <= i < |f| ==> f[i] == if Name()[i] == 's' then '#' else Name()[i]
      ensures '#' in f <==> IsSharp()
    {
      NameDetermines(this);
      Replace(Name(), 's', '#')
    }

    /** `toString` gives the file name, from which the pitch is recovered
        by turning each `#` back into `s`. */
    function ToString(): (s: string)
      ensures ValueOf(Replace(s, '#', 's')) == Some(this)
    {
      NameDetermines(this);
      ReplaceUndone(Name(), 's', '#');
      Filename()
    }

    /** A sharp is written with an `s` in its name. */
    predicate IsSharp() {
      's' in Name()
    }
  }

  const PITCH_COUNT := 13

  /** All pitches in declaration order, as `Pitch.values()` gives them. */
  function Values(): (ps: seq<Pitch>)
    ensures |ps| == PITCH_COUNT
  {
    [C4, Cs4, D4, Ds4, E4, F4, Fs4, G4, Gs4, A4, As4, B4, C5]
  }

  /** `s` with every occurrence of `from` replaced by `to`. */
  function Replace(s: string, from: char, to: char): (r: string)
    ensures |r| == |s|
    ensures forall i :: 0 <= i < |s| ==> r[i] == if s[i] == from then to else s[i]
  {
    if s == [] then []
    else [if s[0] == from then to else s[0]] + Replace(s[1..], from, to)
  }

  /** Replacing `from` by a character `to` that does not occur in the
      input loses nothing: the input can be recovered. */
  lemma ReplaceInjective(s: string, t: string, from: char, to: char)
    requires to !in s && to !in t
    requires Replace(s, from, to) == Replace(t, from, to)
    ensures s == t
  {
    var r := Replace(s, from, to);
    forall i | 0 <= i < |s|
      ensures s[i] == t[i]
    {
      assert s[i] != to && t[i] != to;
    }
  }

  /** Replacing `from` by a character `to` absent from `s` is undone by
      replacing `to` by `from`. */
  lemma ReplaceUndone(s: string, from: char, to: char)
    requires to !in s
    ensures Replace(Replace(s, from, to), to, from) == s
  {
    var r := Replace(Replace(s, from, to), to, from);
    forall i | 0 <= i < |s|
      ensures r[i] == s[i]
    {
      assert s[i] != to;
    }
  }

  /** The C major scale from C4 to C5, the white keys of the piano. */
  function CMajor(): (scale: seq<Pitch>)
    ensures |scale| == 8
  {
    [C4, D4, E4, F4, G4, A4, B4, C5]
  }

  /** Semitones above the tonic of each degree of a major scale. */
  function MajorScaleSteps(): seq<int> {
    [0, 2, 4, 5, 7, 9, 11, 12]
  }

  /** `CMajor` is the major scale on middle C: each degree lies its scale
      step above MIDI note 60, none is a sharp, and the notes ascend. */
  lemma CMajorIsMajorScale()
    ensures forall i :: 0 <= i < 8 ==> CMajor()[i].MidiCode() == 0x3C + MajorScaleSteps()[i]
    ensures forall i :: 0 <= i < 8 ==> !CMajor()[i].IsSharp()
    ensures forall i, j :: 0 <= i < j < 8 ==> CMajor()[i].MidiCode() < CMajor()[j].MidiCode()
  {
    var scale, steps := CMajor(), MajorScaleSteps();
    forall i | 0 <= i < 8
      ensures scale[i].MidiCode() == 0x3C + steps[i] && !scale[i].IsSharp()
    {
    }
    forall i, j | 0 <= i < j < 8
      ensures steps[i] < steps[j]
    {
    }
  }

  /** Pitch file names, as the samples directory spells them. */
  lemma FilenameExamples()
    ensures C4.ToString() == "C4" && Cs4.ToString() == "C#4"
    ensures As4.ToString() == "A#4" && C5.ToString() == "C5"
  {
    assert Replace("C4", 's', '#') == "C4";
    assert Replace("Cs4", 's', '#') == "C#4";
    assert Replace("As4", 's', '#') == "A#4";
    assert Replace("C5", 's', '#') == "C5";
  }

  /** The constant with a given name, as Java's `Pitch.valueOf` finds it. */
  function ValueOf(name: string): Option<Pitch> {
    if name == "C4" then Some(C4) else if name == "Cs4" then Some(Cs4)
    else if name == "D4" then Some(D4) else if name == "Ds4" then Some(Ds4)
    else if name == "E4" then Some(E4) else if name == "F4" then Some(F4)
    else if name == "Fs4" then Some(Fs4) else if name == "G4" then Some(G4)
    else if name == "Gs4" then Some(Gs4) else if name == "A4" then Some(A4)
    else if name == "As4" then Some(As4) else if name == "B4" then Some(B4)
    else if name == "C5" then Some(C5) else None
  }

  /** A pitch is recovered from its name, and no name contains `#`. */
  lemma NameDetermines(p: Pitch)
    ensures ValueOf(p.Name()) == Some(p)
    ensures '#' !in p.Name()
  {
    match p
    case C4 => case Cs4 => case D4 => case Ds4 => case E4 => case F4 => case Fs4 =>
    case G4 => case Gs4 => case A4 => case As4 => case B4 => case C5 =>
  }

  /** Distinct pitches have distinct MIDI codes and distinct file names. */
  lemma PitchesDistinct(p: Pitch, q: Pitch)
    requires p != q
    ensures p.MidiCode() != q.MidiCode()
    ensures p.Filename() != q.Filename()
  {
    assert p.Ordinal() != q.Ordinal();
    FilenamesDistinct(p, q);
  }

  lemma FilenamesDistinct(p: Pitch, q: Pitch)
    requires p != q
    ensures p.Filename() != q.Filename()
  {
    NameDetermines(p);
    NameDetermines(q);
    if p.Filename() == q.Filename() {
      ReplaceInjective(p.Name(), q.Name(), 's', '#');
    }
  }
}
