/** The form description types of the intake questionnaire, and the values a form holds. */
module Forms {

  import opened Wrappers

  /** The `type` of a field; the choice kinds carry their `options`. */
  datatype FieldKind =
    | Text
    | Email
    | Url
    | Number
    | TextArea
    | Select(options: seq<string>)
    | Radio(options: seq<string>)
    | MultiSelect(options: seq<string>)
    | CheckboxGroup(options: seq<string>)
    | Checkbox

  /** A FormField. `required` is `required ?? false`; description, placeholder and rows only affect markup. */
  datatype FormField = FormField(key: string, labelText: string, required: bool, kind: FieldKind)

  /** A FormSection: one step of the intake wizard. */
  datatype FormSection = FormSection(
    key: string,
    title: string,
    fields: seq<FormField>,
    serviceKeys: Option<seq<string>>,
    alwaysVisible: bool)

  /**
   * A value held by the form or stored in a JSON column: `undefined` (Absent),
   * `null`, a string, a number (integers only in this model), a boolean, or a
   * list of strings.
   */
  datatype Value = Absent | Null | Str(s: string) | Num(n: int) | Bool(b: bool) | List(items: seq<string>)

  /** A record of values by field key; a missing key reads as `undefined`. */
  type Values = map<string, Value>

  /** `values[key]`. */
  function Lookup(values: Values, key: string): (v: Value)
    ensures key !in values ==> v == Absent
    ensures key in values ==> v == values[key]
  {
    if key in values then values[key] else Absent
  }

  /** `value ?? null`. */
  function OrNull(v: Value): (r: Value)
    ensures r != Absent
    ensures v != Absent && v != Null ==> r == v
    ensures v == Absent || v == Null ==> r == Null
  {
    if v == Absent then Null else v
  }
}
