/** The form's state: its initial value, folded from the descriptors, and its point updates. */
module FormState {
  import opened FormFields

  /** The names the fields declare. */
  ghost function Names(fields: seq<Field>): set<string>
  {
    set i | 0 <= i < |fields| :: fields[i].name
  }

  /** No two fields share a name (the builder does not enforce this). */
  ghost predicate UniqueNames(fields: seq<Field>)
  {
    forall i, j :: 0 <= i < j < |fields| ==> fields[i].name != fields[j].name
  }

  /** A field's seed value: a checkbox contributes its checked default, the others their string default. */
  function InitialValue(field: Field): (v: Value)
    ensures v.Bool? <==> field.CheckboxField?
  {
    if field.CheckboxField? then Bool(field.defaultChecked) else Str(field.defaultValue)
  }

  /**
   * The state is a plain JavaScript object. Assigning to its `__proto__` key with
   * `acc[name] = v` reaches the prototype setter, which ignores a string or a
   * boolean, so no entry is created; a computed key in an object literal does
   * create one.
   */
  const ProtoKey: string := "__proto__"

  /**
   * The initial state, a left fold over the fields from an empty object: each field in
   * turn assigns its seed value under its name, so a later field overwrites an earlier
   * one of the same name, and a field named `__proto__` leaves no entry.
   */
  function InitialState(fields: seq<Field>): (m: FormData)
    ensures m.Keys == Names(fields) - {ProtoKey}
  {
    if fields == [] then map[]
    else
      var last := |fields| - 1;
      var acc := InitialState(fields[..last]);
      assert Names(fields) == Names(fields[..last]) + {fields[last].name} by {
        forall n | n in Names(fields) ensures n in Names(fields[..last]) + {fields[last].name} {
          var i :| 0 <= i < |fields| && fields[i].name == n;
          if i < last { assert fields[..last][i] == fields[i]; }
        }
      }
      if fields[last].name == ProtoKey then acc
      else acc[fields[last].name := InitialValue(fields[last])]
  }

  /** The position of the last field carrying `name`. */
  function LastIndexOf(fields: seq<Field>, name: string): (i: nat)
    requires name in Names(fields)
    ensures i < |fields| && fields[i].name == name
    ensures forall j :: i < j < |fields| ==> fields[j].name != name
  {
    var last := |fields| - 1;
    if fields[last].name == name then last
    else
      assert name in Names(fields[..last]) by {
        var k :| 0 <= k < |fields| && fields[k].name == name;
        assert fields[..last][k] == fields[k];
      }
      LastIndexOf(fields[..last], name)
  }

  /** The last-wins reading of the initial state, stated name by name rather than as a fold. */
  ghost function LastWins(fields: seq<Field>): FormData
  {
    map name | name in Names(fields) && name != ProtoKey :: InitialValue(fields[LastIndexOf(fields, name)])
  }

  /** The fold computes the last-wins map. */
  lemma {:induction false} InitialStateIsLastWins(fields: seq<Field>)
    ensures InitialState(fields) == LastWins(fields)
  {
    if fields != [] {
      var last := |fields| - 1;
      var prefix := fields[..last];
      InitialStateIsLastWins(prefix);
      var m := InitialState(fields);
      forall name | name in Names(fields) && name != ProtoKey
        ensures m[name] == InitialValue(fields[LastIndexOf(fields, name)])
      {
        if name != fields[last].name {
          assert LastIndexOf(fields, name) == LastIndexOf(prefix, name);
          assert prefix[LastIndexOf(prefix, name)] == fields[LastIndexOf(prefix, name)];
        }
      }
    }
  }

  /**
   * A field that no later field shadows has its own seed value in the initial state,
   * unless it is named `__proto__`, which has no entry.
   */
  lemma {:induction false} InitialStateAt(fields: seq<Field>, i: nat)
    requires i < |fields|
    requires forall j :: i < j < |fields| ==> fields[j].name != fields[i].name
    ensures fields[i].name in InitialState(fields) <==> fields[i].name != ProtoKey
    ensures fields[i].name != ProtoKey ==> InitialState(fields)[fields[i].name] == InitialValue(fields[i])
  {
    InitialStateIsLastWins(fields);
    var name := fields[i].name;
    assert name in Names(fields);
    var k := LastIndexOf(fields, name);
    assert k == i;
  }

  /**
   * Every control that has an entry reads one of its own kind: a string for text and
   * select, a boolean for a checkbox. Which names have entries is stated separately.
   */
  ghost predicate KindsMatch(fields: seq<Field>, formData: FormData)
  {
    forall i :: 0 <= i < |fields| && fields[i].name in formData ==>
      (formData[fields[i].name].Bool? <==> fields[i].CheckboxField?)
  }

  /** With unique names, the initial state gives every control a value of its kind. */
  lemma {:induction false} InitialStateKindsMatch(fields: seq<Field>)
    requires UniqueNames(fields)
    ensures KindsMatch(fields, InitialState(fields))
  {
    forall i | 0 <= i < |fields| && fields[i].name in InitialState(fields)
      ensures InitialState(fields)[fields[i].name].Bool? <==> fields[i].CheckboxField?
    {
      InitialStateAt(fields, i);
    }
  }

  /** Merges one entry into the previous state; every other entry is kept. */
  function HandleInputChange(prev: FormData, name: string, value: Value): (next: FormData)
    ensures next.Keys == prev.Keys + {name}
    ensures next[name] == value
    ensures forall k :: k in prev && k != name ==> next[k] == prev[k]
  {
    prev[name := value]
  }

  /**
   * The value a control's change handler dispatches: text and select controls pass
   * the target's text, a checkbox passes its new checked state.
   */
  function ChangeValue(field: Field, targetValue: string, targetChecked: bool): (v: Value)
    ensures v.Bool? <==> field.CheckboxField?
  {
    match field
    case TextField(_, _, _) => Str(targetValue)
    case SelectField(_, _, _, _) => Str(targetValue)
    case CheckboxField(_, _, _) => Bool(targetChecked)
  }

  /** Submission hands out the current state; it does not change it. */
  function HandleSubmit(formData: FormData): FormData
  {
    formData
  }
}
