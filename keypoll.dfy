/**
 * One pass of the key-polling loop in `main` (main.c:322-341), as a state
 * machine. Its state is the current note, an optional index into the `piano`
 * table; its input is which keys of that table are held, a `seq<bool>` indexed
 * like the table; its output is the new current note and at most one of
 * `note_on` / `note_off`.
 */
module KeyPoll {

  datatype Option<T> = None | Some(value: T)

  /** What a poll pass fires on the envelope: nothing, `note_on` for a table entry, or `note_off`. */
  datatype Event = Quiet | On(index: nat) | Off

  datatype StepResult = StepResult(note: Option<nat>, event: Event)

  /** The first held key in table order, if any. */
  function FirstHeld(down: seq<bool>): (r: Option<nat>)
    ensures r.Some? ==> r.value < |down| && down[r.value]
    ensures r.Some? ==> forall j :: 0 <= j < r.value ==> !down[j]
    ensures r.None? <==> forall j :: 0 <= j < |down| ==> !down[j]
  {
    if |down| == 0 then None
    else if down[0] then Some(0)
    else match FirstHeld(down[1..])
      case None => None
      case Some(k) => Some(k + 1)
  }

  /**
   * The inner `for` of the poll loop: it walks the table and stops (`break`)
   * at the first key that is down.
   */
  method ScanKeys(down: seq<bool>) returns (held: Option<nat>)
    ensures held == FirstHeld(down)
  {
    held := None;
    for i := 0 to |down|
      invariant held == None
      invariant forall j :: 0 <= j < i ==> !down[j]
    {
      if down[i] {
        held := Some(i);
        break;
      }
    }
  }

  /** What one pass of the poll loop does to the current note (main.c:325-341). */
  function Step(note: Option<nat>, down: seq<bool>): (r: StepResult)
    ensures r.note == FirstHeld(down)
    ensures r.event.On? <==> r.note.Some? && r.note != note
    ensures r.event.On? ==> r.note == Some(r.event.index)
    ensures r.event == Off <==> r.note.None? && note.Some?
    ensures r.event == Quiet <==> r.note == note
  {
    var held := FirstHeld(down);
    if held.Some? then
      StepResult(held, if note != held then On(held.value) else Quiet)
    else
      StepResult(None, if note.Some? then Off else Quiet)
  }

  /** Holding the same keys on the next pass fires nothing: a held key never retriggers. */
  lemma HoldNeverRetriggers(note: Option<nat>, down: seq<bool>)
    ensures Step(Step(note, down).note, down) == StepResult(Step(note, down).note, Quiet)
  {
  }

  /** Going straight from one key to another fires `note_on` for the new key and no `note_off`. */
  lemma SwitchKeys(a: nat, down: seq<bool>, b: nat)
    requires FirstHeld(down) == Some(b) && a != b
    ensures Step(Some(a), down) == StepResult(Some(b), On(b))
  {
  }

  /** Letting go of every key fires exactly one `note_off`, after which the note is none. */
  lemma ReleaseAll(a: nat, down: seq<bool>)
    requires forall j :: 0 <= j < |down| ==> !down[j]
    ensures Step(Some(a), down) == StepResult(None, Off)
    ensures Step(None, down) == StepResult(None, Quiet)
  {
  }

  /** A held key masks every key after it in the table. */
  lemma EarlierKeyWins(note: Option<nat>, down: seq<bool>, i: nat, j: nat)
    requires i < j < |down| && down[i] && down[j]
    ensures Step(note, down).note.Some? && Step(note, down).note.value <= i
    ensures Step(note, down).event != On(j)
  {
  }
}
