/**
 * A mounted form instance: its state starts from the initial fold and evolves
 * through the events its controls and its submit button raise.
 */
module FormSession {
  import opened FormFields
  import opened FormState

  /**
   * A change on the control rendered for `fields[index]`, carrying the event
   * target's text and checked state, or a press of the submit button.
   */
  datatype Event =
    | Change(index: nat, targetValue: string, targetChecked: bool)
    | Submit

  /** Every change names a control the form renders. */
  ghost predicate EventsFit(fields: seq<Field>, events: seq<Event>)
  {
    forall k :: 0 <= k < |events| && events[k].Change? ==> events[k].index < |fields|
  }

  /** The state after the control for `fields[index]` dispatched its change. */
  function OnChange(fields: seq<Field>, formData: FormData, index: nat, targetValue: string, targetChecked: bool): FormData
    requires index < |fields|
  {
    var field := fields[index];
    HandleInputChange(formData, field.name, ChangeValue(field, targetValue, targetChecked))
  }

  function Step(fields: seq<Field>, formData: FormData, event: Event): FormData
    requires event.Change? ==> event.index < |fields|
  {
    match event
    case Change(index, targetValue, targetChecked) => OnChange(fields, formData, index, targetValue, targetChecked)
    case Submit => formData
  }

  /** The state after the events, in order. */
  function Replay(fields: seq<Field>, formData: FormData, events: seq<Event>): FormData
    requires EventsFit(fields, events)
    decreases |events|
  {
    if events == [] then formData
    else
      Replay(fields, Step(fields, formData, events[0]), events[1..])
  }

  /** The payloads handed out, one per submit, in order. */
  function Submitted(fields: seq<Field>, formData: FormData, events: seq<Event>): seq<FormData>
    requires EventsFit(fields, events)
    decreases |events|
  {
    if events == [] then []
    else
      var now := if events[0].Submit? then [HandleSubmit(formData)] else [];
      now + Submitted(fields, Step(fields, formData, events[0]), events[1..])
  }

  /** A change keeps every control reading a value of its kind, provided names are unique. */
  lemma OnChangeKeepsKinds(fields: seq<Field>, formData: FormData, index: nat, targetValue: string, targetChecked: bool)
    requires UniqueNames(fields) && KindsMatch(fields, formData)
    requires index < |fields|
    ensures KindsMatch(fields, OnChange(fields, formData, index, targetValue, targetChecked))
  {
    // With unique names, only the changed control reads the entry it writes.
  }

  /**
   * With unique names, a session that starts from a well-kinded state stays
   * well-kinded, and so does every payload it submits.
   */
  lemma {:induction false} SessionKeepsKinds(fields: seq<Field>, formData: FormData, events: seq<Event>)
    requires UniqueNames(fields) && KindsMatch(fields, formData)
    requires EventsFit(fields, events)
    ensures KindsMatch(fields, Replay(fields, formData, events))
    ensures forall p :: p in Submitted(fields, formData, events) ==> KindsMatch(fields, p)
    decreases |events|
  {
    if events != [] {
      var e := events[0];
      if e.Change? {
        OnChangeKeepsKinds(fields, formData, e.index, e.targetValue, e.targetChecked);
      }
      SessionKeepsKinds(fields, Step(fields, formData, e), events[1..]);
    }
  }

  /**
   * A session never drops a key, and the only keys it adds are names of rendered
   * fields; the same holds of every payload it submits.
   */
  lemma {:induction false} SessionKeys(fields: seq<Field>, formData: FormData, events: seq<Event>)
    requires EventsFit(fields, events)
    ensures formData.Keys <= Replay(fields, formData, events).Keys <= formData.Keys + Names(fields)
    ensures forall p :: p in Submitted(fields, formData, events) ==> formData.Keys <= p.Keys <= formData.Keys + Names(fields)
    decreases |events|
  {
    if events != [] {
      var e := events[0];
      if e.Change? {
        assert fields[e.index].name in Names(fields);
      }
      SessionKeys(fields, Step(fields, formData, e), events[1..]);
    }
  }

  /**
   * In a mounted form every field name except `__proto__` has an entry from the start,
   * and no key other than a field name ever appears.
   */
  lemma MountedKeys(fields: seq<Field>, events: seq<Event>)
    requires EventsFit(fields, events)
    ensures Names(fields) - {ProtoKey} <= Replay(fields, InitialState(fields), events).Keys <= Names(fields)
    ensures forall p :: p in Submitted(fields, InitialState(fields), events) ==>
      Names(fields) - {ProtoKey} <= p.Keys <= Names(fields)
  {
    SessionKeys(fields, InitialState(fields), events);
  }

  /** Whether some change in `events` targets a control named `name`. */
  ghost predicate Touches(fields: seq<Field>, events: seq<Event>, name: string)
    requires EventsFit(fields, events)
  {
    exists k :: 0 <= k < |events| && events[k].Change? && fields[events[k].index].name == name
  }

  /** An entry no change touches keeps its value (or its absence) for the whole session. */
  lemma {:induction false} UntouchedEntryKept(fields: seq<Field>, formData: FormData, events: seq<Event>, name: string)
    requires EventsFit(fields, events)
    requires !Touches(fields, events, name)
    ensures name in Replay(fields, formData, events) <==> name in formData
    ensures name in formData ==> Replay(fields, formData, events)[name] == formData[name]
    decreases |events|
  {
    if events != [] {
      var rest := events[1..];
      UntouchedEntryKept(fields, Step(fields, formData, events[0]), rest, name);
    }
  }

  /** Submitting changes nothing: a session of submits only hands out its starting state each time. */
  lemma {:induction false} SubmitsOnly(fields: seq<Field>, formData: FormData, events: seq<Event>)
    requires forall k :: 0 <= k < |events| ==> events[k] == Submit
    ensures EventsFit(fields, events)
    ensures Replay(fields, formData, events) == formData
    ensures |Submitted(fields, formData, events)| == |events|
    ensures forall p :: p in Submitted(fields, formData, events) ==> p == formData
    decreases |events|
  {
    if events != [] {
      SubmitsOnly(fields, formData, events[1..]);
    }
  }

  /** A freshly mounted form that is only submitted hands out its initial state. */
  lemma {:induction false} UntouchedFormSubmitsInitial(fields: seq<Field>, events: seq<Event>)
    requires forall k :: 0 <= k < |events| ==> events[k] == Submit
    ensures EventsFit(fields, events)
    ensures forall p :: p in Submitted(fields, InitialState(fields), events) ==> p == InitialState(fields)
  {
    SubmitsOnly(fields, InitialState(fields), events);
  }
}
