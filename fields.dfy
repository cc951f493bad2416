/** The field descriptors a form is built from and the values its state holds. */
module FormFields {

  /** One entry of a select control: the value it submits and the text it shows
    (`labelText` stands for the source's `label`, a keyword in Dafny). */
  datatype SelectOption = SelectOption(value: string, labelText: string)

  /**
   * A field descriptor, tagged by kind. A select field stores its options and the
   * default the builder computed from them; a checkbox stores a boolean default.
   */
  datatype Field =
    | TextField(name: string, labelText: string, defaultValue: string)
    | SelectField(name: string, labelText: string, options: seq<SelectOption>, defaultValue: string)
    | CheckboxField(name: string, labelText: string, defaultChecked: bool)

  /** A state entry: text and select fields hold strings, checkboxes hold booleans. */
  datatype Value = Str(s: string) | Bool(b: bool)

  /** The state of a mounted form: field name to current value. */
  type FormData = map<string, Value>

  /** What `build` captures: the form identifier and a snapshot of the field list. */
  datatype FormDescriptor = FormDescriptor(formId: string, fields: seq<Field>)
}
