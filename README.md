# A verified model of a small monophonic synthesizer

The program plays one note at a time from the computer keyboard. Three sequential pieces are modelled here:

- **The ADSR envelope** (module `Adsr`, `envelope.dfy`). This is the `Envelope` record, which `note_on` and `note_off` update in place, and `get_amp`, which computes the amplitude. `get_amp` is a piecewise-linear function of time with four phases: attack, decay, sustain and release. Any amplitude at or below 0.0001 is forced to silence. It is modelled over `real` as the pure function `GetAmp`. The record is the class `Envelope`. Its five shape fields are grouped into the datatype `Shape`, because nothing writes them after initialisation.
- **The key-polling edge detector** (module `KeyPoll`, `keypoll.dfy`, and `Synth.Player.Poll` in `synth.dfy`). One pass of `main`'s poll loop is a state machine. Its state is the current note, an optional index into the `piano` table. Its input is which table entries are held, given as a `seq<bool>`. `Step` states what one pass does. `ScanKeys` is the pass's inner `for` loop with `break`. `Player.Poll` applies the pass to the note, to `current_freq` and to the global envelope.
- **The sample-clock audio engine** (module `AudioEngine`, `engine.dfy`). `audio_callback` fills a buffer slot by slot from the sample function and advances the `total_samples` counter. `engine_get_time` turns the counter into seconds at 44100 Hz. `engine_init` clears the engine and fills three 4096-byte buffers before the queue starts. A buffer is a class over an `array<real>` of slots. The sample function is a `real -> real` field.

The synth is monophonic: one envelope and one frequency. Its release always falls from `sustain_amp` (main.c:176-177), not from the level reached when the key was let go. `ReleaseDuringAttackJumps` shows the resulting jump: with the program's envelope shape, the amplitude rises from 0.5 to 0.8 when a key is released during the attack.

## Model

| member | source | states |
|---|---|---|
| Adsr.GetAmp | main.c:153-183 | the amplitude is never negative; it is either exactly 0 or above 0.0001; it is 0 exactly when the unclamped envelope value is at most 0.0001, and otherwise it is that unclamped value |
| Adsr.Envelope.constructor | main.c:185-191 | the global envelope starts with attack 0.10, decay 0.01, start level 1.0, sustain level 0.8 and release 0.2; it starts inactive, with both timestamps 0 |
| Adsr.Envelope.NoteOn | main.c:143-146 | sets `onTime` to the given time and `active` to true; `offTime` is unchanged, and the shape is a constant field |
| Adsr.Envelope.NoteOff | main.c:148-151 | sets `offTime` to the given time and `active` to false; `onTime` is unchanged, and the shape is a constant field |
| Adsr.PhasesPartition | main.c:158-173 | the attack, decay and sustain guards exclude one another and together cover every lifetime |
| Adsr.AttackRamp | main.c:157-161 | while active with 0 <= lifetime <= attack time, the amplitude before the clamp is `(lifetime / attackTime) * startAmp`, a ramp that is 0 at the onset |
| Adsr.DecayLine | main.c:163-168 | in the decay window the amplitude before the clamp is the line from `startAmp` towards `sustainAmp` |
| Adsr.SustainConstant | main.c:170-173 | past attack plus decay the amplitude before the clamp is constantly `sustainAmp`, and `GetAmp` is `sustainAmp` or 0 |
| Adsr.AttackMeetsDecay | main.c:158-168 | at lifetime = attack time, the attack and decay formulas both give `startAmp` |
| Adsr.DecayMeetsSustain | main.c:163-173 | at lifetime = attack + decay, the decay formula gives `sustainAmp` |
| Adsr.ReleaseLine | main.c:174-178 | when inactive, the amplitude does not depend on the onset time; it is `sustainAmp` at `offTime` and 0 at `offTime + releaseTime` |
| Adsr.ReleaseSilent | main.c:174-182 | once the release time has passed after `offTime`, the amplitude is 0 (for a non-negative sustain level) |
| Adsr.ReleaseNonIncreasing | main.c:174-182 | while inactive, the amplitude never rises as time goes on (for a non-negative sustain level) |
| Adsr.ReleaseDuringAttackJumps | main.c:157-178 | with the program's shape, a key held from 0 is at 0.5 at t = 0.05; released then, the amplitude restarts at 0.8 |
| Adsr.InitialRelease | main.c:174-191 | before any key is pressed, the zeroed envelope reads 0.8 at t = 0 and 0 from t = 0.2 on |
| Adsr.Scenario | main.c:143-191 | with `note_on` at 0, the amplitude is 0.5 at 0.05 and 0.8 at 0.2; after `note_off` at 0.2 it is 0.4 at 0.3 and 0 at every t >= 0.4 |
| KeyPoll.FirstHeld | main.c:326-336 | the result is the least index whose key is down, or none exactly when no key is down |
| KeyPoll.ScanKeys | main.c:326-336 | the loop that stops at the first key that is down finds exactly `FirstHeld` |
| KeyPoll.Step | main.c:325-341 | the new note is the first held key; `note_on` fires exactly when that note exists and differs from the current one, and it fires for that note; `note_off` fires exactly when no key is held and a note was current; nothing fires exactly when the note is unchanged |
| KeyPoll.HoldNeverRetriggers | main.c:329-333 | a second pass with the same keys held fires nothing and keeps the note |
| KeyPoll.SwitchKeys | main.c:326-341 | moving straight from one key to another fires `note_on` for the new key and no `note_off` |
| KeyPoll.ReleaseAll | main.c:338-341 | with no key down, a current note yields exactly one `note_off` and no note; with no current note nothing fires |
| KeyPoll.EarlierKeyWins | main.c:326-335 | when two keys are down, the later one in the table never becomes the note and never fires `note_on` |
| Synth.Player.constructor | main.c:320 | the poll loop starts with no note and a frequency of 0 |
| Synth.Player.Poll | main.c:322-341 | the note becomes `Step`'s; on `note_on` the frequency becomes the table entry's and the envelope starts at the engine time; on `note_off` the envelope is released at the engine time; otherwise nothing changes |
| Synth.Player.MakeSound | main.c:193-197 | the sound is silent whenever the envelope is |
| Synth.SoundWithinEnvelope | main.c:193-197 | for an oscillator in [-1, 1], the sound stays within plus or minus master volume times envelope |
| Synth.PressAndHold | main.c:322-336 | after the engine starts, a pass with a key held gives that note and its frequency; one more buffer later, a second pass with the same key held leaves the onset at the first pass's time (sample 3072), strictly before the engine's time then, so it does not retrigger |
| AudioEngine.SampleTime | engine.h:45-47 | the time of sample n is non-negative, and 44100 times it is n |
| AudioEngine.SlotCount | engine.h:52 | a buffer of c bytes has the largest n slots with 4n <= c |
| AudioEngine.BufferSlots | engine.h:33 | a 4096-byte buffer has 1024 slots |
| AudioEngine.SampleTimeIncreasing | engine.h:54-57 | later samples have strictly later times, so the times across one buffer strictly increase |
| AudioEngine.Buffer.constructor | engine.h:32-33 | a freshly allocated buffer has the requested capacity, one slot per 4 bytes, and a reported size of 0 |
| AudioEngine.Engine.constructor | engine.h:10-15 | storage for the engine record, with chosen start values (a zero format and counter); the program leaves it uninitialised until `engine_init`'s `memset`, and nothing `Init` promises depends on these values |
| AudioEngine.Engine.GetTime | engine.h:45-47 | 44100 times the engine time is the sample counter |
| AudioEngine.Engine.AudioCallback | engine.h:49-62 | writes exactly `capacity / 4` slots; slot i gets the sample function at the time of sample `old(totalSamples) + i`; the counter grows by the slot count; the reported byte size becomes the capacity; the format and sample function are unchanged |
| AudioEngine.Engine.Init | engine.h:17-38 | sets the 44100 Hz mono float format and the sample function, and fills three fresh 4096-byte buffers in turn; slot i of buffer k holds the sample function at sample 1024k + i, and the counter ends at 3 * 1024 = 3072 |

## Left out

- `osc`, `osclfo`, `modulate`, `W` and `FREQ` (main.c:81-130) use `sin`, `asin` and `pow` on floating point. There is no exact model of them. `MakeSound` takes the oscillator as a function parameter, and the frequencies in the `piano` table are parameters.
- Floating point: times and amplitudes are `real`, so `f64`/`f32` rounding is not modelled. The scenario values (0.5, 0.8, 0.4) are exact here and only approximate in the program.
- `total_samples` is a `u64` in the program and a `nat` here. It would take about 13 million years at 44100 Hz to wrap.
- The `_Atomic` globals `current_freq` and `current_amp` are not modelled as atomics. The envelope is shared between the audio thread and the poll loop without synchronisation, and that concurrency is not modelled either. `current_amp` is the constant `Master`, because nothing writes it. In the program the sample function is `make_sound`, which reads those mutable globals. In the model it is a fixed `real -> real` over one buffer.
- The AudioToolbox calls. `AudioQueueNewOutput`, `AudioQueueStart`, `AudioQueueEnqueueBuffer` and `engine_stop` (`AudioQueueStop`, `AudioQueueDispose`) control a foreign device queue and are not modelled. `AudioQueueAllocateBuffer` becomes the `Buffer` constructor. The format ID and format flags are foreign constants and are not modelled.
- `is_key_down`, kbd.h and test/keypress.c read OS keyboard state. They are replaced by the `down: seq<bool>` input, which is indexed like the `piano` table.
- The ncurses display (`draw_piano`, `draw_stats`), `usleep`, the Q-to-quit exit and the endless outer loop of `main` (main.c:282-355) are UI and timing. Only one pass of the poll loop is modelled.
- test/basic.c and test/term.c are demos of floating-point sine output and the terminal. They are not modelled.
- The `KeyboardKey` codes and the `piano` table literals are data. The table is a `seq<Note>` parameter.
- The second copy of the engine in main.c:21-75 is the same as engine.h and is modelled once.
- Adsr.ReleaseSilent: requires a non-negative sustain level, which the program does not demand. With a negative sustain level the release line rises above zero after the release time.
- Adsr.ReleaseNonIncreasing: requires a non-negative sustain level, for the same reason.
