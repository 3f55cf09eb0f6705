/**
 * The program's own state around the envelope (main.c:91-92, 185-197,
 * 293-341): the `piano` table, the current note, the frequency the sound is
 * made at, and the poll pass that drives the one global envelope. The synth is
 * monophonic: one envelope, one frequency.
 */
module Synth {
  import opened Adsr
  import opened KeyPoll
  import AudioEngine

  /** The master volume `current_amp`, which nothing writes after initialisation (main.c:92). */
  const Master: real := 0.5

  /** An entry of the `piano` table: key code, frequency in Hz, and label. */
  datatype Note = Note(code: nat, freq: real, repr: string)

  class Player {
    /** The `piano` table, in the order the poll pass scans it. */
    const piano: seq<Note>
    /** The global `env`. */
    const env: Envelope
    /** The `note` pointer of `main`, as an index into `piano`. */
    var note: Option<nat>
    /** `current_freq`. */
    var currentFreq: real

    ghost predicate Valid()
      reads this
    {
      note.Some? ==> note.value < |piano|
    }

    /** The state `main` starts its poll loop in: no note, frequency 0. */
    constructor (piano: seq<Note>, env: Envelope)
      ensures Valid() && this.piano == piano && this.env == env
      ensures note == None && currentFreq == 0.0
    {
      this.piano := piano;
      this.env := env;
      note := None;
      currentFreq := 0.0;
    }

    /**
     * One pass of the poll loop (main.c:323-341), given which table entries
     * are down: the new note is `Step`'s, and the envelope and the frequency
     * change exactly as `Step`'s event says, at the engine's current time.
     */
    method Poll(engine: AudioEngine.Engine, down: seq<bool>)
      requires Valid() && engine.Valid()
      requires |down| == |piano|
      modifies this`note, this`currentFreq, env
      ensures Valid()
      ensures note == Step(old(note), down).note
      ensures match Step(old(note), down).event
        case On(i) =>
          i < |piano| && currentFreq == piano[i].freq &&
          env.active && env.onTime == engine.GetTime() && env.offTime == old(env.offTime)
        case Off =>
          currentFreq == old(currentFreq) &&
          !env.active && env.offTime == engine.GetTime() && env.onTime == old(env.onTime)
        case Quiet =>
          currentFreq == old(currentFreq) &&
          env.active == old(env.active) && env.onTime == old(env.onTime) && env.offTime == old(env.offTime)
    {
      var now := engine.GetTime();
      var held := ScanKeys(down);
      if held.Some? {
        if note != held {
          currentFreq := piano[held.value].freq;
          note := held;
          env.NoteOn(now);
        }
      } else if note.Some? {
        note := None;
        env.NoteOff(now);
      }
    }

    /**
     * `make_sound` (main.c:193-197) with the oscillator passed in: master
     * volume times envelope times oscillator. It is silent whenever the
     * envelope is.
     */
    function MakeSound(osc: (real, real) -> real, time: real): (r: real)
      reads this, env
      requires WellFormed(env.shape)
      ensures env.Amp(time) == 0.0 ==> r == 0.0
    {
      Master * (env.Amp(time) * osc(currentFreq, time))
    }
  }

  /** With an oscillator that keeps to [-1, 1], the sound stays within master volume times envelope. */
  lemma SoundWithinEnvelope(p: Player, osc: (real, real) -> real, time: real)
    requires WellFormed(p.env.shape)
    requires -1.0 <= osc(p.currentFreq, time) <= 1.0
    ensures -Master * p.env.Amp(time) <= p.MakeSound(osc, time) <= Master * p.env.Amp(time)
  {
    var amp, wave := p.env.Amp(time), osc(p.currentFreq, time);
    ScaledWave(amp, wave);
    assert p.MakeSound(osc, time) == Master * (amp * wave);
  }

  lemma ScaledWave(amp: real, wave: real)
    requires amp >= 0.0 && -1.0 <= wave <= 1.0
    ensures -amp <= amp * wave <= amp
  {
  }

  /**
   * Starting the engine, pressing a key, letting one more buffer play and
   * polling again with the same key held: the note starts once, at the first
   * pass's time, and the second pass, one buffer later, does not retrigger it.
   */
  method PressAndHold(callback: real -> real, piano: seq<Note>, down: seq<bool>, i: nat)
    returns (engine: AudioEngine.Engine, p: Player)
    requires |down| == |piano| && i < |down| && down[i]
    requires forall j :: 0 <= j < i ==> !down[j]
    ensures engine.Valid() && engine.totalSamples == 4096
    ensures p.note == Some(i) && p.currentFreq == piano[i].freq && p.env.active
    ensures p.env.onTime == AudioEngine.SampleTime(3072)
    ensures p.env.onTime < engine.GetTime()
  {
    engine := new AudioEngine.Engine();
    var primed := engine.Init(callback);
    var env := new Envelope();
    p := new Player(piano, env);
    p.Poll(engine, down);
    var buf := new AudioEngine.Buffer(AudioEngine.BufferBytes);
    AudioEngine.BufferSlots();
    engine.AudioCallback(buf);
    p.Poll(engine, down);
    AudioEngine.SampleTimeIncreasing(3072, 4096);
  }
}
