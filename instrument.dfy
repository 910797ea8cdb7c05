/** The instruments whose recorded notes can be played. Each keeps a cache
    with one slot per pitch and fills a slot the first time its note is
    asked for. Loading a sound file is I/O outside the model: its outcome
    is a parameter, and `None` stands for the Java loader's `null`. */
module Instruments {
  import opened Jvm
  import opened Pitches

  /** The folder holding one sub-folder of samples per instrument. */
  const ALL_SAMPLES := "/home/pi/Documents/flynn/SoundsWithPulse/samples"

  /** The enum constants PIANO and BASS. */
  datatype Voice = Piano | Bass {
    /** `toString`, which gives `instrumentName`, also the name of the
        instrument's sample folder. Each constant has its own name. */
    function ToString(): (name: string)
      ensures name == "piano" <==> this == Piano
      ensures name == "bass" <==> this == Bass
    {
      match this
      case Piano => "piano"
      case Bass => "bass"
    }
  }

  /** A loaded, playable sound. */
  datatype Clip = Clip(id: nat)

  class Instrument {
    const voice: Voice
    /** `SOUNDS`: the clip cached for each pitch, by ordinal; `None` until loaded. */
    const sounds: array<Option<Clip>>
    /** The files whose loading has been attempted so far. */
    ghost var loadsAttempted: seq<string>

    ghost predicate Valid()
      reads this
    {
      sounds.Length == PITCH_COUNT
    }

    constructor (voice: Voice)
      ensures Valid() && fresh(sounds) && this.voice == voice
      ensures forall i :: 0 <= i < sounds.Length ==> sounds[i] == None
      ensures loadsAttempted == []
    {
      this.voice := voice;
      sounds := new Option<Clip>[PITCH_COUNT](_ => None);
      loadsAttempted := [];
    }

    /** Where the sample of `p` is stored: the pitch's file name with a
        `.wav` extension, in the instrument's folder under ALL_SAMPLES. */
    function FilenameOf(p: Pitch): (path: string)
      ensures var dir := ALL_SAMPLES + "/" + voice.ToString() + "/";
        && |path| == |dir| + |p.ToString()| + 4
        && path[..|dir|] == dir
        && path[|dir|..|path| - 4] == p.ToString()
        && path[|path| - 4..] == ".wav"
    {
      ALL_SAMPLES + "/" + voice.ToString() + "/" + p.ToString() + ".wav"
    }

    /** Returns the clip for `p`, loading it on first use. `loaded` is
        what loading the file yields now; it is ignored on a cache hit. */
    method GetSound(p: Pitch, loaded: Option<Clip>) returns (clip: Option<Clip>)
      requires Valid()
      modifies sounds, this`loadsAttempted
      ensures Valid()
      // the pitch's slot afterwards holds the clip returned
      ensures sounds[p.Ordinal()] == clip
      // a hit returns the cached clip and loads nothing
      ensures old(sounds[p.Ordinal()]).Some? ==>
        && clip == old(sounds[p.Ordinal()])
        && sounds[..] == old(sounds[..]) && loadsAttempted == old(loadsAttempted)
      // a miss loads the pitch's file and caches the outcome in its slot only
      ensures old(sounds[p.Ordinal()]).None? ==>
        && clip == loaded
        && sounds[..] == old(sounds[..])[p.Ordinal() := loaded]
        && loadsAttempted == old(loadsAttempted) + [FilenameOf(p)]
    {
      if sounds[p.Ordinal()].Some? {
        return sounds[p.Ordinal()];
      }
      loadsAttempted := loadsAttempted + [FilenameOf(p)];
      clip := loaded;
      sounds[p.Ordinal()] := clip;
    }
  }

  /** Different pitches of one instrument are stored in different files. */
  lemma SamplePathsDistinct(instrument: Instrument, p: Pitch, q: Pitch)
    requires p != q
    ensures instrument.FilenameOf(p) != instrument.FilenameOf(q)
  {
    PitchesDistinct(p, q);
    assert |p.ToString()| == |p.Name()| && |q.ToString()| == |q.Name()|;
  }

  /** A failed load leaves the slot empty, so the next request for the
      same pitch tries the file again; a successful load is kept. */
  method RetryAfterFailedLoad(instrument: Instrument, p: Pitch, clip: Clip)
    requires instrument.Valid() && instrument.sounds[p.Ordinal()] == None
    modifies instrument.sounds, instrument`loadsAttempted
    ensures instrument.sounds[p.Ordinal()] == Some(clip)
    ensures instrument.loadsAttempted
         == old(instrument.loadsAttempted) + [instrument.FilenameOf(p), instrument.FilenameOf(p)]
  {
    var first := instrument.GetSound(p, None);
    assert first == None;
    var second := instrument.GetSound(p, Some(clip));
    assert second == Some(clip);
    var third := instrument.GetSound(p, None);
    assert third == Some(clip);
  }
}
