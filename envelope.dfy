/**
 * The ADSR amplitude envelope of the synthesizer (main.c:132-191).
 *
 * The source keeps one mutable `Envelope` record. Its five shape fields are
 * written once, by the initialiser of the global `env`; `note_on` and
 * `note_off` overwrite the timing fields and the `active` flag in place; and
 * `get_amp` reads the record and returns the amplitude at a given time.
 * Times and amplitudes are `f64` in the source and `real` here.
 */
module Adsr {

  /** The five shape fields of the envelope record, which nothing writes after initialisation. */
  datatype Shape = Shape(
    attackTime: real,
    decayTime: real,
    startAmp: real,
    sustainAmp: real,
    releaseTime: real)

  /** The three durations `get_amp` divides by must be positive. */
  predicate WellFormed(s: Shape) {
    s.attackTime > 0.0 && s.decayTime > 0.0 && s.releaseTime > 0.0
  }

  /** The shape the program's global `env` is initialised with (main.c:185-191). */
  const SynthShape: Shape := Shape(0.10, 0.01, 1.0, 0.8, 0.2)

  /** An amplitude at or below this level is replaced by silence (main.c:180). */
  const Threshold: real := 0.0001

  // The three guards of the active branch of `get_amp`, as the source writes them.

  predicate InAttack(s: Shape, lifetime: real) {
    lifetime <= s.attackTime
  }

  predicate InDecay(s: Shape, lifetime: real) {
    lifetime > s.attackTime && lifetime <= s.attackTime + s.decayTime
  }

  predicate InSustain(s: Shape, lifetime: real) {
    lifetime > s.attackTime + s.decayTime
  }

  // The formula each phase evaluates.

  function AttackLevel(s: Shape, lifetime: real): real
    requires WellFormed(s)
  {
    (lifetime / s.attackTime) * s.startAmp
  }

  function DecayLevel(s: Shape, lifetime: real): real
    requires WellFormed(s)
  {
    ((lifetime - s.attackTime) / s.decayTime) * (s.sustainAmp - s.startAmp) + s.startAmp
  }

  function ReleaseLevel(s: Shape, offTime: real, time: real): real
    requires WellFormed(s)
  {
    ((time - offTime) / s.releaseTime) * (0.0 - s.sustainAmp) + s.sustainAmp
  }

  /**
   * The value of `get_amp`'s local `amp` just before the final clamp. While
   * active, the three `if`s run one after the other, each overwriting `amp`
   * when its guard holds; `amp` starts at 0.0.
   */
  function Unclamped(s: Shape, active: bool, onTime: real, offTime: real, time: real): real
    requires WellFormed(s)
  {
    var lifetime := time - onTime;
    if active then
      var a0 := 0.0;
      var a1 := if InAttack(s, lifetime) then AttackLevel(s, lifetime) else a0;
      var a2 := if InDecay(s, lifetime) then DecayLevel(s, lifetime) else a1;
      if InSustain(s, lifetime) then s.sustainAmp else a2
    else
      ReleaseLevel(s, offTime, time)
  }

  /** `get_amp`: the envelope value, with anything at or below the threshold forced to 0. */
  function GetAmp(s: Shape, active: bool, onTime: real, offTime: real, time: real): (amp: real)
    requires WellFormed(s)
    ensures amp >= 0.0
    ensures amp == 0.0 || amp > Threshold
    ensures amp == 0.0 <==> Unclamped(s, active, onTime, offTime, time) <= Threshold
    ensures amp == 0.0 || amp == Unclamped(s, active, onTime, offTime, time)
  {
    var amp := Unclamped(s, active, onTime, offTime, time);
    if amp <= Threshold then 0.0 else amp
  }

  /** The record itself: `note_on` and `note_off` update its fields in place. */
  class Envelope {
    var active: bool
    const shape: Shape
    var onTime: real
    var offTime: real

    /** The global `env`: the shape as initialised, every other field zero. */
    constructor ()
      ensures shape == SynthShape
      ensures !active && onTime == 0.0 && offTime == 0.0
    {
      active := false;
      shape := SynthShape;
      onTime := 0.0;
      offTime := 0.0;
    }

    /** `note_on` (main.c:143-146). */
    method NoteOn(time: real)
      modifies this`onTime, this`active
      ensures onTime == time && active
      ensures offTime == old(offTime)
    {
      onTime := time;
      active := true;
    }

    /** `note_off` (main.c:148-151). */
    method NoteOff(time: real)
      modifies this`offTime, this`active
      ensures offTime == time && !active
      ensures onTime == old(onTime)
    {
      offTime := time;
      active := false;
    }

    /** `get_amp(&env, time)` on the record's current fields. */
    function Amp(time: real): real
      reads this
      requires WellFormed(shape)
    {
      GetAmp(shape, active, onTime, offTime, time)
    }
  }

  /** The three guards of the active branch are mutually exclusive and cover every lifetime. */
  lemma PhasesPartition(s: Shape, lifetime: real)
    requires WellFormed(s)
    ensures InAttack(s, lifetime) || InDecay(s, lifetime) || InSustain(s, lifetime)
    ensures !(InAttack(s, lifetime) && InDecay(s, lifetime))
    ensures !(InAttack(s, lifetime) && InSustain(s, lifetime))
    ensures !(InDecay(s, lifetime) && InSustain(s, lifetime))
  {
  }

  /** Attack: a linear ramp from 0 at the onset, untouched by the two later `if`s. */
  lemma AttackRamp(s: Shape, onTime: real, offTime: real, time: real)
    requires WellFormed(s)
    requires 0.0 <= time - onTime <= s.attackTime
    ensures Unclamped(s, true, onTime, offTime, time) == ((time - onTime) / s.attackTime) * s.startAmp
    ensures Unclamped(s, true, onTime, offTime, onTime) == 0.0
  {
  }

  /** Decay: the straight line from `startAmp` towards `sustainAmp`. */
  lemma DecayLine(s: Shape, onTime: real, offTime: real, time: real)
    requires WellFormed(s)
    requires InDecay(s, time - onTime)
    ensures Unclamped(s, true, onTime, offTime, time) == DecayLevel(s, time - onTime)
  {
  }

  /** Sustain: past attack plus decay the amplitude is constantly `sustainAmp`. */
  lemma SustainConstant(s: Shape, onTime: real, offTime: real, time: real)
    requires WellFormed(s)
    requires time - onTime > s.attackTime + s.decayTime
    ensures Unclamped(s, true, onTime, offTime, time) == s.sustainAmp
    ensures GetAmp(s, true, onTime, offTime, time) == if s.sustainAmp <= Threshold then 0.0 else s.sustainAmp
  {
  }

  /** Continuity where attack meets decay: both formulas give `startAmp`. */
  lemma AttackMeetsDecay(s: Shape)
    requires WellFormed(s)
    ensures AttackLevel(s, s.attackTime) == s.startAmp
    ensures DecayLevel(s, s.attackTime) == s.startAmp
  {
  }

  /** Continuity where decay meets sustain: the decay formula reaches `sustainAmp`. */
  lemma DecayMeetsSustain(s: Shape)
    requires WellFormed(s)
    ensures DecayLevel(s, s.attackTime + s.decayTime) == s.sustainAmp
  {
  }

  /**
   * Release: the line from `sustainAmp` at `offTime` to 0 at `offTime + releaseTime`,
   * whatever the onset time, and therefore whatever level the held phases had reached.
   */
  lemma ReleaseLine(s: Shape, onTime1: real, onTime2: real, offTime: real, time: real)
    requires WellFormed(s)
    ensures Unclamped(s, false, onTime1, offTime, time) == Unclamped(s, false, onTime2, offTime, time)
    ensures Unclamped(s, false, onTime1, offTime, offTime) == s.sustainAmp
    ensures Unclamped(s, false, onTime1, offTime, offTime + s.releaseTime) == 0.0
  {
  }

  /** Once the release time has passed the envelope is silent for good. */
  lemma ReleaseSilent(s: Shape, onTime: real, offTime: real, time: real)
    requires WellFormed(s) && s.sustainAmp >= 0.0
    requires time >= offTime + s.releaseTime
    ensures GetAmp(s, false, onTime, offTime, time) == 0.0
  {
  }

  /** While released, the amplitude never rises (for a non-negative sustain level). */
  lemma ReleaseNonIncreasing(s: Shape, onTime: real, offTime: real, t1: real, t2: real)
    requires WellFormed(s) && s.sustainAmp >= 0.0
    requires t1 <= t2
    ensures GetAmp(s, false, onTime, offTime, t2) <= GetAmp(s, false, onTime, offTime, t1)
  {
    var x1 := (t1 - offTime) / s.releaseTime;
    var x2 := (t2 - offTime) / s.releaseTime;
    assert x1 <= x2 by {
      assert x1 * s.releaseTime == t1 - offTime;
      assert x2 * s.releaseTime == t2 - offTime;
    }
    assert x2 * (0.0 - s.sustainAmp) <= x1 * (0.0 - s.sustainAmp);
    assert ReleaseLevel(s, offTime, t2) <= ReleaseLevel(s, offTime, t1);
  }

  /**
   * Because release always starts from `sustainAmp`, a key released during the
   * attack makes the amplitude jump: with the program's shape, released at
   * t = 0.05 (level 0.5 a moment before), the envelope restarts at 0.8.
   */
  lemma ReleaseDuringAttackJumps()
    ensures GetAmp(SynthShape, true, 0.0, 0.0, 0.05) == 0.5
    ensures GetAmp(SynthShape, false, 0.0, 0.05, 0.05) == 0.8
  {
  }

  /**
   * Before any key is pressed the zeroed record is in its release phase: the
   * envelope reads 0.8 at t = 0 and has fallen silent from t = 0.2 on.
   */
  lemma InitialRelease(time: real)
    requires time >= 0.2
    ensures GetAmp(SynthShape, false, 0.0, 0.0, 0.0) == 0.8
    ensures GetAmp(SynthShape, false, 0.0, 0.0, time) == 0.0
  {
    ReleaseSilent(SynthShape, 0.0, 0.0, time);
  }

  /**
   * The program's envelope through one note: pressed at 0, it is half way up the
   * attack at 0.05 and sustaining at 0.2; released at 0.2, it is half way down at
   * 0.3 and silent from 0.4 on.
   */
  method Scenario() returns (e: Envelope, attackMid: real, sustained: real, releaseMid: real)
    ensures attackMid == 0.5 && sustained == 0.8 && releaseMid == 0.4
    ensures e.shape == SynthShape && !e.active && e.onTime == 0.0 && e.offTime == 0.2
    ensures forall t :: t >= 0.4 ==> e.Amp(t) == 0.0
  {
    e := new Envelope();
    e.NoteOn(0.0);
    attackMid := e.Amp(0.05);
    sustained := e.Amp(0.2);
    e.NoteOff(0.2);
    releaseMid := e.Amp(0.3);
    forall t | t >= 0.4
      ensures e.Amp(t) == 0.0
    {
      ReleaseSilent(e.shape, e.onTime, e.offTime, t);
    }
  }
}
