/** The polyphonic synthesizer (`Synthesizer`): a set of sounding keys paired with a
    map from each key to its two oscillator phases, the buffer/channel structure of the
    audio callback, and the tone presets. The key type is generic (the source keys
    voices by their float frequency). */
module Synth {
  import opened Common

  /** The two oscillator phases of one voice (`float[2]`). */
  datatype Phase = Phase(osc1: real, osc2: real)

  /** `new float[2]`: both phases start at zero. */
  const FreshPhase := Phase(0.0, 0.0)

  /** The inspector parameters a preset assigns (Synthesizer.cs:6-14, without the sample rate). */
  datatype Tone = Tone(
    masterVolume: real, osc1Volume: real, osc2Volume: real, detune: real,
    distortionAmount: real, filterCutoff: real, filterResonance: real)

  /** The field initialisers (Synthesizer.cs:6-14). */
  const DefaultTone := Tone(0.5, 0.7, 0.3, 0.05, 2.0, 0.9, 0.5)
  const DefaultSampleRate: real := 44100.0

  /** The values each preset method assigns (Synthesizer.cs:121-224). */
  const DistortedSawTone := Tone(0.8, 0.7, 0.5, 0.02, 2.5, 0.7, 0.5)
  const FrenchHouseBassTone := Tone(0.85, 0.8, 0.4, 0.01, 1.5, 0.3, 0.6)
  const TechnoBassTone := Tone(0.9, 0.7, 0.5, 0.03, 3.0, 0.4, 0.4)
  const CrunchySquareTone := Tone(0.7, 0.6, 0.4, 0.01, 1.8, 0.5, 0.7)
  const DeepSubBassTone := Tone(0.6, 0.5, 0.2, 0.0, 1.0, 0.2, 0.3)
  const PluckyLeadTone := Tone(0.8, 0.6, 0.4, 0.02, 1.2, 0.6, 0.8)

  /** The ranges the field comments give: volumes and the cutoff between 0 and 1, a
      non-negative detune, a positive distortion amount. */
  predicate InRange(t: Tone) {
    && 0.0 <= t.masterVolume <= 1.0 && 0.0 <= t.osc1Volume <= 1.0 && 0.0 <= t.osc2Volume <= 1.0
    && 0.0 <= t.detune && 0.0 < t.distortionAmount
    && 0.0 <= t.filterCutoff <= 1.0 && 0.0 <= t.filterResonance <= 1.0
  }

  /** The defaults and every preset keep the parameters in range. */
  lemma PresetsInRange()
    ensures InRange(DefaultTone)
    ensures InRange(DistortedSawTone) && InRange(FrenchHouseBassTone) && InRange(TechnoBassTone)
    ensures InRange(CrunchySquareTone) && InRange(DeepSubBassTone) && InRange(PluckyLeadTone)
  {
  }

  /** The voice map after `PlayNote(f)`: a fresh phase pair for a new key; a key
      already sounding keeps its phases (no retrigger). */
  function Started<K>(phases: map<K, Phase>, f: K): (r: map<K, Phase>)
    ensures r.Keys == phases.Keys + {f}
    ensures f in phases ==> r[f] == phases[f]
    ensures f !in phases ==> r[f] == FreshPhase
    ensures forall g :: g in phases && g != f ==> r[g] == phases[g]
  {
    if f in phases then phases else phases[f := FreshPhase]
  }

  /** The voice map after `StopNote(f)`: the key is gone, every other voice is untouched. */
  function Stopped<K>(phases: map<K, Phase>, f: K): (r: map<K, Phase>)
    ensures r.Keys == phases.Keys - {f}
    ensures forall g :: g in r ==> r[g] == phases[g]
  {
    phases - {f}
  }

  /** Pressing a key twice has the effect of pressing it once. */
  lemma StartedIdempotent<K>(phases: map<K, Phase>, f: K)
    ensures Started(Started(phases, f), f) == Started(phases, f)
  {
  }

  /** Releasing a key that was just pressed restores the voices that were sounding. */
  lemma StopAfterStart<K>(phases: map<K, Phase>, f: K)
    requires f !in phases
    ensures Stopped(Started(phases, f), f) == phases
  {
    assert Stopped(Started(phases, f), f).Keys == phases.Keys;
  }

  /** Releasing and pressing a sounding key again restarts its phases from zero. */
  lemma StartAfterStop<K>(phases: map<K, Phase>, f: K)
    requires f in phases
    ensures Started(Stopped(phases, f), f) == phases[f := FreshPhase]
  {
    assert Started(Stopped(phases, f), f).Keys == phases[f := FreshPhase].Keys;
  }

  /** The order in which two keys are pressed does not matter. */
  lemma StartCommutes<K>(phases: map<K, Phase>, f: K, g: K)
    ensures Started(Started(phases, f), g) == Started(Started(phases, g), f)
  {
    assert Started(Started(phases, f), g).Keys == Started(Started(phases, g), f).Keys;
  }

  /** One frame of the voice loop: every sounding key's phases move by `advance`, the
      per-sample increment and wrap, which this model does not interpret. */
  function Advanced<K>(phases: map<K, Phase>, advance: (K, Phase) -> Phase): (r: map<K, Phase>)
    ensures r.Keys == phases.Keys
    ensures forall f :: f in r ==> r[f] == advance(f, phases[f])
  {
    map f | f in phases :: advance(f, phases[f])
  }

  /** The voice map after `n` frames. */
  function AdvancedBy<K>(phases: map<K, Phase>, advance: (K, Phase) -> Phase, n: nat): (r: map<K, Phase>)
    ensures r.Keys == phases.Keys
    decreases n
  {
    if n == 0 then phases else Advanced(AdvancedBy(phases, advance, n - 1), advance)
  }

  /** In a buffer of whole frames, frame `frame` ends inside the buffer when it starts there. */
  lemma FrameFits(frame: int, channels: int, length: int)
    requires channels > 0 && length >= 0 && length % channels == 0 && 0 <= frame * channels < length
    ensures frame * channels + channels <= length
  {
    var q := length / channels;
    assert length == q * channels;
    MulAtLeast(q - frame, channels);
    assert (q - frame) * channels == q * channels - frame * channels;
  }

  /** The slots `frame * channels ..< frame * channels + channels` all belong to frame `frame`. */
  lemma FrameOf(frame: nat, channels: int)
    requires channels > 0
    ensures forall k :: frame * channels <= k < frame * channels + channels ==> k / channels == frame
  {
    forall k | frame * channels <= k < frame * channels + channels
      ensures k / channels == frame
    {
      DivMod(frame, k - frame * channels, channels);
    }
  }

  class Synthesizer<K(==)> {
    var tone: Tone
    const sampleRate: real
    var activeFrequencies: set<K>
    var phases: map<K, Phase>

    /** Every sounding key has a phase pair and every phase pair belongs to a sounding key. */
    ghost predicate Valid()
      reads this
    {
      phases.Keys == activeFrequencies
    }

    /** The field initialisers: default tone, no voice. */
    constructor ()
      ensures Valid()
      ensures tone == DefaultTone && sampleRate == DefaultSampleRate
      ensures activeFrequencies == {} && phases == map[]
    {
      tone := DefaultTone;
      sampleRate := DefaultSampleRate;
      activeFrequencies := {};
      phases := map[];
    }

    /** Start a voice for `freq` unless one is already sounding. */
    method PlayNote(freq: K)
      requires Valid()
      modifies this`activeFrequencies, this`phases
      ensures Valid()
      ensures activeFrequencies == old(activeFrequencies) + {freq}
      ensures phases == Started(old(phases), freq)
    {
      if freq !in activeFrequencies {
        activeFrequencies := activeFrequencies + {freq};
        phases := phases[freq := FreshPhase];
      }
    }

    /** Stop the voice for `freq`, if any. */
    method StopNote(freq: K)
      requires Valid()
      modifies this`activeFrequencies, this`phases
      ensures Valid()
      ensures activeFrequencies == old(activeFrequencies) - {freq}
      ensures phases == Stopped(old(phases), freq)
    {
      if freq in activeFrequencies {
        activeFrequencies := activeFrequencies - {freq};
        phases := phases - {freq};
      }
    }

    /** Stop every voice. */
    method StopAllNotes()
      modifies this`activeFrequencies, this`phases
      ensures Valid()
      ensures activeFrequencies == {} && phases == map[]
    {
      activeFrequencies := {};
      phases := map[];
    }

    /** The audio callback over an interleaved buffer of `data.Length / channels` frames.
        With no voice it returns at once and touches nothing. Otherwise every voice's
        phases advance once per frame, and each of the `channels` slots of frame `f`
        receives `frameSample(f)` clamped to `[-1, 1]`. `frameSample` stands for the
        oscillators, distortion and low-pass filter, which this model does not interpret. */
    method OnAudioFilterRead(data: array<real>, channels: int, frameSample: nat -> real, advance: (K, Phase) -> Phase)
      requires Valid() && channels > 0 && data.Length % channels == 0
      modifies data, this`phases
      ensures Valid()
      ensures activeFrequencies == {} ==> data[..] == old(data[..]) && phases == old(phases)
      ensures activeFrequencies != {} ==>
        forall k :: 0 <= k < data.Length ==> data[k] == ClampUnit(frameSample(k / channels))
      ensures activeFrequencies != {} ==> phases == AdvancedBy(old(phases), advance, data.Length / channels)
    {
      if activeFrequencies == {} {
        return;
      }
      var i := 0;
      ghost var frame: nat := 0;
      while i < data.Length
        invariant 0 <= i <= data.Length && i == frame * channels
        invariant phases == AdvancedBy(old(phases), advance, frame)
        invariant forall k :: 0 <= k < i ==> data[k] == ClampUnit(frameSample(k / channels))
        invariant forall k :: i <= k < data.Length ==> data[k] == old(data[k])
        decreases data.Length - i
      {
        FrameFits(frame, channels, data.Length);
        FrameOf(frame, channels);
        var sample := frameSample(i / channels);
        phases := Advanced(phases, advance);
        WriteFrame(data, i, channels, ClampUnit(sample));
        assert i + channels == (frame + 1) * channels;
        i := i + channels;
        frame := frame + 1;
      }
      DivMod(frame, 0, channels);
    }

    /** The channel loop: slots `start ..< start + channels` receive `value`. */
    static method WriteFrame(data: array<real>, start: int, channels: int, value: real)
      requires 0 <= start && 0 <= channels && start + channels <= data.Length
      modifies data
      ensures forall k :: 0 <= k < data.Length ==>
        data[k] == if start <= k < start + channels then value else old(data[k])
    {
      for j := 0 to channels
        invariant forall k :: 0 <= k < data.Length ==>
          data[k] == if start <= k < start + j then value else old(data[k])
      {
        data[start + j] := value;
      }
    }

    method DistortedSaw()
      modifies this`tone
      ensures tone == DistortedSawTone
    {
      tone := DistortedSawTone;
    }

    method FrenchHouseBass()
      modifies this`tone
      ensures tone == FrenchHouseBassTone
    {
      tone := FrenchHouseBassTone;
    }

    method TechnoBass()
      modifies this`tone
      ensures tone == TechnoBassTone
    {
      tone := TechnoBassTone;
    }

    method CrunchySquare()
      modifies this`tone
      ensures tone == CrunchySquareTone
    {
      tone := CrunchySquareTone;
    }

    method DeepSubBass()
      modifies this`tone
      ensures tone == DeepSubBassTone
    {
      tone := DeepSubBassTone;
    }

    /** The envelope values it passes to `SetEnvelope` are only logged there. */
    method PluckyLead()
      modifies this`tone
      ensures tone == PluckyLeadTone
    {
      tone := PluckyLeadTone;
    }
  }
}
