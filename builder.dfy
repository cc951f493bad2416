/** The fluent builder: it appends descriptors in place and hands out a snapshot. */
module Builder {
  import opened FormFields

  class FormBuilder {
    var formId: string
    var fields: seq<Field>

    /** A fresh builder records its form identifier and has no fields. */
    constructor (formId: string)
      ensures this.formId == formId
      ensures fields == []
    {
      this.formId := formId;
      fields := [];
    }

    /** Appends a text field; an omitted default is the empty string. */
    method AddTextField(name: string, labelText: string, defaultValue: string := "") returns (self: FormBuilder)
      modifies this
      ensures self == this
      ensures fields == old(fields) + [TextField(name, labelText, defaultValue)]
      ensures formId == old(formId)
    {
      fields := fields + [TextField(name, labelText, defaultValue)];
      self := this;
    }

    /** Appends a select field whose default is the first option's value, or empty without options. */
    method AddSelectField(name: string, labelText: string, options: seq<SelectOption>) returns (self: FormBuilder)
      modifies this
      ensures self == this
      ensures fields == old(fields) + [SelectField(name, labelText, options, if options == [] then "" else options[0].value)]
      ensures formId == old(formId)
    {
      var defaultValue := if |options| > 0 then options[0].value else "";
      fields := fields + [SelectField(name, labelText, options, defaultValue)];
      self := this;
    }

    /** Appends a checkbox; an omitted default is unchecked. */
    method AddCheckbox(name: string, labelText: string, defaultChecked: bool := false) returns (self: FormBuilder)
      modifies this
      ensures self == this
      ensures fields == old(fields) + [CheckboxField(name, labelText, defaultChecked)]
      ensures formId == old(formId)
    {
      fields := fields + [CheckboxField(name, labelText, defaultChecked)];
      self := this;
    }

    /**
     * Captures the identifier and a copy of the current field list. The descriptor
     * is a value, so later `Add*` calls on this builder cannot reach it.
     */
    method Build() returns (form: FormDescriptor)
      ensures form.formId == formId
      ensures form.fields == fields
    {
      form := FormDescriptor(formId, fields);
    }
  }
}
