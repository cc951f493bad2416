# Form builder model

This project models the form builder of a small React front end in Dafny.
A `FormBuilder` collects text, select and checkbox field descriptors through chained `add*` calls.
`build()` then turns the collected fields into a form component.
That component seeds its state from the field defaults, merges each control's change into the state, and hands the state out on submit.

Modules:

- `FormFields` (`fields.dfy`): the field descriptors (`Field`, a sum of `TextField`, `SelectField` and `CheckboxField`), select options, state values (`Value = Str | Bool`), the state map `FormData`, and the `FormDescriptor` that `build()` captures. The source's `label` property is called `labelText`, because `label` is a Dafny keyword.
- `Builder` (`builder.dfy`): the `FormBuilder` class. Its field list is a `seq<Field>` that each `add*` method extends in place. Each `add*` method returns the builder itself, so calls chain as `b := b.AddTextField(...)`. `Build` returns an immutable descriptor, which is the snapshot `[...this.fields]` takes.
- `FormState` (`state.dfy`): the initial-state fold, an independent last-wins definition of it, the merge done by `handleInputChange`, and the value each kind of control dispatches.
- `FormSession` (`session.dfy`): a mounted form as a sequence of events (a change on the control at some position, or a submit) replayed from a starting state. The React `useState` slot is this explicit state value.
- `Scenarios` (`scenarios.dfy`): the user-profile form that `src/App.tsx` builds, plus edge cases (a select without options, duplicate names, adding after `build`).

## Model

| member | source | states |
|---|---|---|
| `Builder.FormBuilder.constructor` | src/FormBuilder.tsx:38-41 | A new builder records the given form id and has an empty field list. |
| `Builder.FormBuilder.AddTextField` | src/FormBuilder.tsx:43-55 | Appends exactly one text descriptor with the given name, label and default (`""` when omitted). Earlier descriptors and the form id are unchanged. Returns the same builder. |
| `Builder.FormBuilder.AddSelectField` | src/FormBuilder.tsx:57-70 | Appends exactly one select descriptor holding the options. Its default is the first option's value, or `""` when there are no options. Earlier descriptors are unchanged. Returns the same builder. |
| `Builder.FormBuilder.AddCheckbox` | src/FormBuilder.tsx:72-84 | Appends exactly one checkbox descriptor whose default is `false` when omitted. Earlier descriptors are unchanged. Returns the same builder. |
| `Builder.FormBuilder.Build` | src/FormBuilder.tsx:86-88 | The built descriptor carries the builder's form id and its current field list, as a value. |
| `FormState.InitialValue` | src/FormBuilder.tsx:94-98 | A field seeds a boolean exactly when it is a checkbox. Text and select fields seed a string. |
| `FormState.InitialState` | src/FormBuilder.tsx:92-102 | The initial state's key set is exactly the set of field names, minus `__proto__`. Assigning that key on a plain object reaches the prototype setter and stores nothing. |
| `FormState.InitialStateIsLastWins` | src/FormBuilder.tsx:92-102 | The left fold equals the map that gives each name other than `__proto__` the seed value of the last field with that name. |
| `FormState.InitialStateAt` | src/FormBuilder.tsx:92-102 | A field that no later field shadows has an entry exactly when it is not named `__proto__`. That entry is its own default: `defaultChecked` for a checkbox, `defaultValue` for the other kinds. |
| `FormState.InitialStateKindsMatch` | src/FormBuilder.tsx:92-104 | With unique names, every text or select control with an entry starts on a string, and every checkbox with an entry on a boolean. |
| `FormState.HandleInputChange` | src/FormBuilder.tsx:106-114 | After a merge, the key set grows at most by `name`. `name` holds the new value and every other entry keeps its value. |
| `FormState.ChangeValue` | src/FormBuilder.tsx:139-179 | A change handler dispatches a boolean exactly for a checkbox (`checked`). Text and select controls dispatch a string (`value`). |
| `FormSession.OnChangeKeepsKinds` | src/FormBuilder.tsx:139-179 | With unique names, one control change keeps every control reading a value of its own kind. |
| `FormSession.SessionKeepsKinds` | src/FormBuilder.tsx:104-179 | With unique names, any sequence of changes and submits keeps the state well-kinded. Every submitted payload is well-kinded too. |
| `FormSession.SessionKeys` | src/FormBuilder.tsx:104-121 | A session never drops a key, and it adds only names of rendered fields. This holds for the state and for every payload. |
| `FormSession.MountedKeys` | src/FormBuilder.tsx:92-121 | In a mounted form, every field name except `__proto__` has an entry from the start, and no key other than a field name ever appears, in the state or in a payload. |
| `FormSession.UntouchedEntryKept` | src/FormBuilder.tsx:110-113 | An entry that no change in the session targets keeps its value, or stays absent. |
| `FormSession.SubmitsOnly` | src/FormBuilder.tsx:116-121 | Submits do not change the state. A session of n submits hands out n payloads, each equal to the state it started from. |
| `FormSession.UntouchedFormSubmitsInitial` | src/FormBuilder.tsx:104-121 | A freshly mounted form that is only submitted hands out exactly its initial state. |
| `Scenarios.UserProfileForm` | src/App.tsx:5-17 | The application's builder chain yields the five listed fields. Its initial state is username "john.doe", email "", department "eng", newsletter true and terms false. |
| `Scenarios.ProfileInitialState` | src/App.tsx:7-17 | The fold over the user-profile fields gives that five-entry map. |
| `Scenarios.ProfileChangeThenSubmit` | src/FormBuilder.tsx:152-159 | Choosing "hr" in the department select and then submitting hands out the initial map with department "hr". |
| `Scenarios.SnapshotIsolation` | src/FormBuilder.tsx:86-88 | A field added after `build()` reaches the builder's list but not the descriptor already built. |
| `Scenarios.EmptySelect` | src/FormBuilder.tsx:67 | A select without options seeds `""`. |
| `Scenarios.DuplicateNamesLastWins` | src/FormBuilder.tsx:92-102 | Two fields with the same name leave one entry, holding the later field's default. |
| `Scenarios.ProtoFieldSeedsNothing` | src/FormBuilder.tsx:92-121 | A lone `__proto__` field seeds no entry, so submitting first hands out `{}`. After a change on its control, the merge adds the entry and the next payload holds it. |
| `Scenarios.DuplicateNamesBreakKinds` | src/FormBuilder.tsx:92-102 | Without unique names, a text control can end up reading a checkbox's boolean. This is why the kind lemmas require unique names. |

## Left out

- Rendering (src/FormBuilder.tsx:123-198): the markup, CSS classes, labels and `htmlFor` wiring, and option elements are not modelled. Fields render in list order with the key `name-index`; the events of `FormSession` name a control by that position.
- React's `useState` and re-render scheduling: the state is an explicit value threaded through `Step` and `Replay`. Each mount starts from its own `InitialState`. Two builds give two independent values, so isolation between instances holds by construction rather than by a lemma.
- The submit side effects `e.preventDefault()`, `console.log` and `window.alert(JSON.stringify(...))` are browser I/O. `HandleSubmit` only returns the current state.
- `[...this.fields]` is a shallow copy: the option arrays stay shared by reference with the caller. The model's sequences are values, so later mutation of a caller's option array is not modelled.
- `FormData` is modelled as a finite map, except for the one JavaScript object quirk that changes the key set: a field named `__proto__`. The fold's assignment skips it; the merge's computed key stores it. Reading `formData["__proto__"]` before any change yields `Object.prototype` in the source. The model has no entry there and does not model what that control then displays.
- The builder does not check that names are unique; neither does the model. The kind-preservation lemmas take unique names as a hypothesis.
- src/AuthService.tsx is not part of this model. It does not type-check: `getInstance` lacks parentheses and the timer call is malformed. Its static methods also use instance fields, so it has no coherent contract.
- src/App.tsx mounting and page layout are not modelled. Its builder chain is used only as the `Scenarios.UserProfileForm` scenario.
