/** Concrete forms: the user-profile form the application mounts, and edge cases of the builder. */
module Scenarios {
  import opened FormFields
  import opened FormState
  import opened FormSession
  import Builder

  const Departments: seq<SelectOption> :=
    [SelectOption("eng", "Engineering"), SelectOption("hr", "Human Resources"), SelectOption("mktg", "Marketing")]

  /** The fields of the user-profile form, in registration order. */
  const ProfileFields: seq<Field> := [
    TextField("username", "Username", "john.doe"),
    TextField("email", "Email Address", ""),
    SelectField("department", "Department", Departments, "eng"),
    CheckboxField("newsletter", "Subscribe to newsletter", true),
    CheckboxField("terms", "I agree to terms and conditions", false)
  ]

  const ProfileInitial: FormData := map[
    "username" := Str("john.doe"), "email" := Str(""), "department" := Str("eng"),
    "newsletter" := Bool(true), "terms" := Bool(false)]

  /** The application's builder chain: omitted defaults and the select default come out as listed. */
  method UserProfileForm() returns (form: FormDescriptor)
    ensures form == FormDescriptor("user-profile-form", ProfileFields)
    ensures InitialState(form.fields) == ProfileInitial
  {
    var b := new Builder.FormBuilder("user-profile-form");
    b := b.AddTextField("username", "Username", "john.doe");
    b := b.AddTextField("email", "Email Address");
    b := b.AddSelectField("department", "Department", Departments);
    b := b.AddCheckbox("newsletter", "Subscribe to newsletter", true);
    b := b.AddCheckbox("terms", "I agree to terms and conditions", false);
    form := b.Build();
    assert form.fields == ProfileFields;
    ProfileInitialState();
  }

  lemma ProfileInitialState()
    ensures InitialState(ProfileFields) == ProfileInitial
  {
    var f := ProfileFields;
    var m1 := map["username" := Str("john.doe")];
    var m2 := m1["email" := Str("")];
    var m3 := m2["department" := Str("eng")];
    var m4 := m3["newsletter" := Bool(true)];
    assert InitialState(f[..1]) == m1 by { assert f[..1][..0] == []; }
    assert InitialState(f[..2]) == m2 by { assert f[..2][..1] == f[..1]; }
    assert InitialState(f[..3]) == m3 by { assert f[..3][..2] == f[..2]; }
    assert InitialState(f[..4]) == m4 by { assert f[..4][..3] == f[..3]; }
    assert InitialState(f) == m4["terms" := Bool(false)] by { assert f[..4] == f[..|f| - 1]; }
  }

  /** Choosing another department and submitting hands out the edited state; the rest keeps its defaults. */
  lemma ProfileChangeThenSubmit()
    ensures EventsFit(ProfileFields, [Change(2, "hr", false), Submit])
    ensures Submitted(ProfileFields, InitialState(ProfileFields), [Change(2, "hr", false), Submit])
         == [ProfileInitial["department" := Str("hr")]]
  {
    ProfileInitialState();
    var events := [Change(2, "hr", false), Submit];
    assert events[1..] == [Submit];
    assert events[1..][1..] == [];
  }

  /** Fields added after `Build` do not reach the descriptor it returned. */
  method SnapshotIsolation() returns (built: FormDescriptor, current: seq<Field>)
    ensures built.fields == [TextField("x", "X", "")]
    ensures current == built.fields + [CheckboxField("y", "Y", false)]
  {
    var b := new Builder.FormBuilder("f");
    b := b.AddTextField("x", "X");
    built := b.Build();
    b := b.AddCheckbox("y", "Y");
    current := b.fields;
  }

  /** A select without options defaults to the empty string. */
  method EmptySelect() returns (initial: FormData)
    ensures initial == map["x" := Str("")]
  {
    var b := new Builder.FormBuilder("f");
    b := b.AddSelectField("x", "X", []);
    var form := b.Build();
    initial := InitialState(form.fields);
    assert form.fields[..0] == [];
  }

  /** Two fields named alike leave one entry, holding the later field's default. */
  lemma DuplicateNamesLastWins()
    ensures InitialState([TextField("dup", "A", "first"), TextField("dup", "B", "second")])
         == map["dup" := Str("second")]
  {
  }

  /**
   * Unique names are needed for controls to read values of their kind: a text field
   * followed by a checkbox of the same name leaves the text control reading a boolean.
   */
  lemma DuplicateNamesBreakKinds()
    ensures !KindsMatch([TextField("dup", "A", ""), CheckboxField("dup", "B", true)],
                        InitialState([TextField("dup", "A", ""), CheckboxField("dup", "B", true)]))
  {
  }

  /**
   * A field named `__proto__` seeds no entry, so an untouched form submits an empty
   * payload; a change on its control then adds the entry through the merge.
   */
  lemma ProtoFieldSeedsNothing()
    ensures InitialState([TextField("__proto__", "P", "x")]) == map[]
    ensures EventsFit([TextField("__proto__", "P", "x")], [Submit, Change(0, "y", false), Submit])
    ensures Submitted([TextField("__proto__", "P", "x")], map[], [Submit, Change(0, "y", false), Submit])
         == [map[], map["__proto__" := Str("y")]]
  {
  }
}
