/**
 * The validation rules built from the form description (`fieldToSchema`,
 * `buildFormSchema`): which value each field kind accepts, what it turns the
 * value into, and the first issue reported when it does not.
 */
module Schema {

  import opened Wrappers
  import opened Collections
  import opened Forms
  import Text

  /** The validation library's checks that this model leaves abstract. */
  datatype Library = Library(
    isEmail: string -> bool,              // the `.email()` syntax check
    isUrl: string -> bool,                // the `.url()` check
    parseNumeric: string -> Option<int>)  // `Number(s)` of a trimmed, non-blank string: None for NaN

  /** One validation issue, with the message it carries. */
  datatype Issue =
    | Required                                        // a missing value where one is needed
    | InvalidType(expected: string, received: string)
    | InvalidEnumValue(options: seq<string>, received: string)
    | InvalidUnion
    | Custom(message: string)                         // a message the schema supplies

  const EmailMessage := "Enter a valid email address"
  const UrlMessage := "Enter a valid URL, e.g. https://example.com"
  const EmptyStringMessage := "String must contain exactly 0 character(s)"

  /** `${field.label} is required`. */
  function RequiredMessage(f: FormField): string {
    f.labelText + " is required"
  }

  /** The type name the library reports for a value it did not expect. */
  function TypeName(v: Value): string {
    match v
    case Absent => "undefined"
    case Null => "null"
    case Str(_) => "string"
    case Num(_) => "number"
    case Bool(_) => "boolean"
    case List(_) => "array"
  }

  /** `'a' | 'b' | …`, the way the library lists enum options. */
  function QuotedOptions(options: seq<string>): string {
    Text.Join(seq(|options|, i requires 0 <= i < |options| => "'" + options[i] + "'"), " | ")
  }

  /** The text of an issue. */
  function IssueMessage(issue: Issue): string {
    match issue
    case Required => "Required"
    case InvalidType(expected, received) => "Expected " + expected + ", received " + received
    case InvalidEnumValue(options, received) =>
      "Invalid enum value. Expected " + QuotedOptions(options) + ", received '" + received + "'"
    case InvalidUnion => "Invalid input"
    case Custom(message) => message
  }

  /** A string schema with an optional format check, then `.min(1, required)` or `.optional()`. */
  function StringRule(f: FormField, v: Value, format: Option<(string -> bool, string)>): Result<Value, Issue> {
    if v.Absent? then (if f.required then Err(Required) else Ok(Absent))
    else if !v.Str? then Err(InvalidType("string", TypeName(v)))
    else if format.Some? && !format.value.0(v.s) then Err(Custom(format.value.1))
    else if f.required && |v.s| < 1 then Err(Custom(RequiredMessage(f)))
    else Ok(v)
  }

  /**
   * `Number(v)`, the coercion `z.coerce.number()` applies before its NaN check:
   * undefined is NaN, null and false are 0, true is 1, a blank string is 0, a
   * list is the number of its only element (0 when empty, NaN when longer).
   */
  function ToNumber(v: Value, lib: Library): Option<int> {
    match v
    case Absent => None
    case Null => Some(0)
    case Bool(b) => Some(if b then 1 else 0)
    case Num(n) => Some(n)
    case Str(s) => StringToNumber(s, lib)
    case List(items) =>
      if items == [] then Some(0)
      else if |items| == 1 then StringToNumber(items[0], lib)
      else None
  }

  /** `Number(s)` for a string: surrounding white space is ignored and a blank string is 0. */
  function StringToNumber(s: string, lib: Library): Option<int> {
    var t := Text.Trim(s);
    if t == [] then Some(0) else lib.parseNumeric(t)
  }

  /**
   * `union([coerce.number(), string().length(0)])` mapped so that a string
   * result becomes undefined, then the required refinement or `.optional()`.
   * When both alternatives fail the union reports the length issue of a
   * string (the only alternative that got past the type check) or else
   * "Invalid input".
   */
  function NumberRule(f: FormField, v: Value, lib: Library): Result<Value, Issue> {
    if v.Absent? && !f.required then Ok(Absent)
    else
      var coerced := ToNumber(v, lib);
      var union: Result<Value, Issue> :=
        if coerced.Some? then Ok(Num(coerced.value))
        else if v.Str? && |v.s| == 0 then Ok(Absent)
        else if v.Str? then Err(Custom(EmptyStringMessage))
        else Err(InvalidUnion);
      if union.Ok? && f.required && union.value.Absent? then Err(Custom(RequiredMessage(f)))
      else union
  }

  /** `enum(options)`, optional unless required. */
  function EnumRule(f: FormField, v: Value, options: seq<string>): Result<Value, Issue> {
    if v.Absent? then (if f.required then Err(Required) else Ok(Absent))
    else if !v.Str? then Err(InvalidType(QuotedOptions(options), TypeName(v)))
    else if v.s in options then Ok(v)
    else Err(InvalidEnumValue(options, v.s))
  }

  /** `array(string()).default([])`, then the non-empty refinement when required. */
  function ListRule(f: FormField, v: Value): Result<Value, Issue> {
    var list: Result<Value, Issue> :=
      if v.Absent? then Ok(List([]))
      else if v.List? then Ok(v)
      else Err(InvalidType("array", TypeName(v)));
    if list.Ok? && f.required && list.value.items == [] then Err(Custom(RequiredMessage(f)))
    else list
  }

  /** `literal(true)` with every issue reported as the required message, or `boolean().optional()`. */
  function CheckboxRule(f: FormField, v: Value): Result<Value, Issue> {
    if f.required then
      (if v == Bool(true) then Ok(v) else Err(Custom(RequiredMessage(f))))
    else if v.Absent? || v.Bool? then Ok(v)
    else Err(InvalidType("boolean", TypeName(v)))
  }

  /** `fieldToSchema(field)` applied to a value, as the source writes it. */
  function ParseFieldAsWritten(f: FormField, v: Value, lib: Library): (r: Result<Value, Issue>)
    ensures v.Absent? ==> (r.Ok? <==> !f.required)
    ensures r.Ok? ==> r.value == v || (f.kind.Number? && (r.value.Num? || r.value.Absent?)) || (v.Absent? && r.value == List([]))
  {
    match f.kind
    case Email => StringRule(f, v, Some((lib.isEmail, EmailMessage)))
    case Url => StringRule(f, v, Some((lib.isUrl, UrlMessage)))
    case Text => StringRule(f, v, None)
    case TextArea => StringRule(f, v, None)
    case Number => NumberRule(f, v, lib)
    case Select(options) => EnumRule(f, v, options)
    case Radio(options) => EnumRule(f, v, options)
    case MultiSelect(_) => ListRule(f, v)
    case CheckboxGroup(_) => ListRule(f, v)
    case Checkbox => CheckboxRule(f, v)
  }

  /** The field kinds whose optional form rejects the empty string as written. */
  predicate BlankIsRejected(kind: FieldKind) {
    kind.Email? || kind.Url? || kind.Select? || kind.Radio?
  }

  /**
   * The corrected field rule, `Rules.Corrected`. It is the rule as written,
   * except that the empty string — the value an untouched input holds — is
   * treated as "not provided" where the source evidently means it to be:
   * a number field (required: the required message; optional: absent), and an
   * optional email, url, select or radio field (absent).
   */
  function ParseField(f: FormField, v: Value, lib: Library): (r: Result<Value, Issue>)
    ensures v != Str("") ==> r == ParseFieldAsWritten(f, v, lib)
    ensures v.Absent? ==> (r.Ok? <==> !f.required)
    ensures r.Ok? ==> r.value == v || (f.kind.Number? && r.value.Num?) || (v.Absent? && r.value == List([])) || r.value == Absent
  {
    if v == Str("") && f.kind.Number? then
      (if f.required then Err(Custom(RequiredMessage(f))) else Ok(Absent))
    else if v == Str("") && !f.required && BlankIsRejected(f.kind) then Ok(Absent)
    else ParseFieldAsWritten(f, v, lib)
  }

  /** Which field rule a parse applies: the source's own, or the corrected one. */
  datatype Rules = AsWritten | Corrected

  /** The field rule `rules` selects. */
  function FieldRule(rules: Rules, f: FormField, v: Value, lib: Library): Result<Value, Issue> {
    match rules
    case AsWritten => ParseFieldAsWritten(f, v, lib)
    case Corrected => ParseField(f, v, lib)
  }

  /** A field under `.partial()`: a missing value is accepted as missing. */
  function ParseFieldPartial(f: FormField, v: Value, lib: Library, rules: Rules, partial: bool): Result<Value, Issue> {
    if partial && v.Absent? then Ok(Absent) else FieldRule(rules, f, v, lib)
  }

  /** The library facts the findings rely on: the empty string is neither an email address nor a URL. */
  predicate RejectsBlank(lib: Library) {
    !lib.isEmail("") && !lib.isUrl("")
  }

  /** Text and textarea: a string is accepted unchanged, except "" when required; absence only when optional. */
  lemma TextFieldRule(f: FormField, v: Value, lib: Library)
    requires f.kind.Text? || f.kind.TextArea?
    ensures ParseField(f, v, lib).Ok? <==> (v.Absent? && !f.required) || (v.Str? && (!f.required || v.s != ""))
    ensures ParseField(f, v, lib).Ok? ==> ParseField(f, v, lib).value == v
    ensures f.required && v == Str("") ==> ParseField(f, v, lib) == Err(Custom(RequiredMessage(f)))
  {
  }

  /**
   * Email and url: an optional field accepts absence (and, corrected, the
   * blank string); any other string is accepted exactly when it passes the
   * format check, and otherwise fails with the format message.
   */
  lemma FormatFieldRule(f: FormField, s: string, lib: Library)
    requires f.kind.Email? || f.kind.Url?
    ensures !f.required ==> ParseField(f, Absent, lib) == Ok(Absent)
    ensures f.kind.Email? && s != "" ==> (ParseField(f, Str(s), lib).Ok? <==> lib.isEmail(s))
    ensures f.kind.Email? && !lib.isEmail(s) ==> ParseField(f, Str(s), lib) == Err(Custom(EmailMessage)) || (s == "" && !f.required)
    ensures f.kind.Url? && s != "" ==> (ParseField(f, Str(s), lib).Ok? <==> lib.isUrl(s))
    ensures f.kind.Url? && !lib.isUrl(s) ==> ParseField(f, Str(s), lib) == Err(Custom(UrlMessage)) || (s == "" && !f.required)
  {
  }

  /**
   * Number: the empty string means "not provided" (corrected); a required
   * field then fails with the required message, and on success it always
   * holds a number; a value that coerces to a number is accepted as that number.
   */
  lemma NumberFieldRule(f: FormField, v: Value, lib: Library)
    requires f.kind.Number?
    ensures ParseField(f, Str(""), lib) == if f.required then Err(Custom(RequiredMessage(f))) else Ok(Absent)
    ensures f.required ==> ParseField(f, Absent, lib).Err?
    ensures !f.required ==> ParseField(f, Absent, lib) == Ok(Absent)
    ensures f.required && ParseField(f, v, lib).Ok? ==> ParseField(f, v, lib).value.Num?
    ensures v != Str("") && ToNumber(v, lib).Some? ==> ParseField(f, v, lib) == Ok(Num(ToNumber(v, lib).value))
  {
  }

  /** Select and radio: a present string is accepted exactly when it is one of the options. */
  lemma ChoiceFieldRule(f: FormField, s: string, lib: Library)
    requires f.kind.Select? || f.kind.Radio?
    requires f.required || s != ""
    ensures ParseField(f, Str(s), lib).Ok? <==> s in f.kind.options
    ensures s !in f.kind.options ==> ParseField(f, Str(s), lib) == Err(InvalidEnumValue(f.kind.options, s))
    ensures ParseField(f, Absent, lib).Ok? <==> !f.required
  {
  }

  /** Multiselect and checkbox-group: a missing value defaults to [], and a required list must not be empty. */
  lemma ListFieldRule(f: FormField, items: seq<string>, lib: Library)
    requires f.kind.MultiSelect? || f.kind.CheckboxGroup?
    ensures ParseField(f, Absent, lib) == if f.required then Err(Custom(RequiredMessage(f))) else Ok(List([]))
    ensures ParseField(f, List(items), lib).Ok? <==> !f.required || items != []
    ensures ParseField(f, List(items), lib).Ok? ==> ParseField(f, List(items), lib).value == List(items)
  {
  }

  /** Checkbox: a required one accepts only true, with the required message otherwise; an optional one accepts any boolean or absence. */
  lemma CheckboxFieldRule(f: FormField, v: Value, lib: Library)
    requires f.kind.Checkbox?
    ensures f.required ==> (ParseField(f, v, lib).Ok? <==> v == Bool(true))
    ensures f.required && v != Bool(true) ==> ParseField(f, v, lib) == Err(Custom(RequiredMessage(f)))
    ensures !f.required ==> (ParseField(f, v, lib).Ok? <==> v.Absent? || v.Bool?)
  {
  }

  /** Under `.partial()` every field accepts absence. */
  lemma PartialAcceptsAbsence(f: FormField, lib: Library, rules: Rules)
    ensures ParseFieldPartial(f, Absent, lib, rules, true) == Ok(Absent)
  {
  }

  /** As written, a blank number input coerces to 0, so even a required number field accepts it. */
  lemma BlankNumberAsWritten(f: FormField, lib: Library)
    requires f.kind.Number?
    ensures ParseFieldAsWritten(f, Str(""), lib) == Ok(Num(0))
  {
    BlankNumberRule(f, lib);
    assert ParseFieldAsWritten(f, Str(""), lib) == NumberRule(f, Str(""), lib);
  }

  /** The number rule accepts the blank string as 0, required or not. */
  lemma BlankNumberRule(f: FormField, lib: Library)
    ensures NumberRule(f, Str(""), lib) == Ok(Num(0))
  {
    BlankCoercesToZero(lib);
  }

  /** `Number("")` is 0: the trimmed blank string is empty. */
  lemma BlankCoercesToZero(lib: Library)
    ensures ToNumber(Str(""), lib) == Some(0)
  {
    assert |Text.Trim("")| <= 0;
  }

  /** As written, an optional email, url, select or radio field rejects the blank string. */
  lemma BlankOptionalChoiceAsWritten(f: FormField, lib: Library)
    requires !f.required && BlankIsRejected(f.kind) && RejectsBlank(lib)
    requires (f.kind.Select? || f.kind.Radio?) ==> "" !in f.kind.options
    ensures ParseFieldAsWritten(f, Str(""), lib).Err?
  {
  }

  // ---------------------------------------------------------------------------
  // The object schema

  /** The object shape: field keys in insertion order, and the field each key validates with. */
  datatype Shape = Shape(keys: seq<string>, fields: map<string, FormField>)

  /** `shape[field.key] = fieldToSchema(field)`: a new key goes last, an existing key keeps its place. */
  function Assign(sh: Shape, f: FormField): Shape {
    Shape(if f.key in sh.fields then sh.keys else sh.keys + [f.key], sh.fields[f.key := f])
  }

  /** Every field of every section, in order. */
  function AllFields(sections: seq<FormSection>): seq<FormField> {
    if sections == [] then []
    else AllFields(sections[..|sections| - 1]) + sections[|sections| - 1].fields
  }

  /** The keys of a list of fields, in order. */
  function KeysOf(fs: seq<FormField>): (ks: seq<string>)
    ensures |ks| == |fs|
  {
    if fs == [] then [] else KeysOf(fs[..|fs| - 1]) + [fs[|fs| - 1].key]
  }

  /** The shape after assigning each field in turn. */
  function ShapeOfFields(fs: seq<FormField>): Shape {
    if fs == [] then Shape([], map[])
    else Assign(ShapeOfFields(fs[..|fs| - 1]), fs[|fs| - 1])
  }

  /** The shape `buildFormSchema(sections)` produces. */
  function ShapeOf(sections: seq<FormSection>): Shape {
    ShapeOfFields(AllFields(sections))
  }

  /** The shape has an entry for exactly the keys of the fields. */
  lemma {:induction false} ShapeFieldsAreFieldKeys(fs: seq<FormField>)
    ensures forall k :: k in ShapeOfFields(fs).fields <==> k in KeysOf(fs)
  {
    if fs != [] {
      ShapeFieldsAreFieldKeys(fs[..|fs| - 1]);
    }
  }

  /** An element is in the de-duplicated sequence exactly when it is in the sequence. */
  lemma DedupMembership<T>(s: seq<T>, x: T)
    ensures x in Dedup(s) <==> x in s
  {
    if x in Dedup(s) {
      var i :| 0 <= i < |Dedup(s)| && Dedup(s)[i] == x;
    }
    if x in s {
      var i :| 0 <= i < |s| && s[i] == x;
    }
  }

  /** The shape's key order is the order in which the field keys first occur. */
  lemma {:induction false} ShapeKeysAreFirstOccurrences(fs: seq<FormField>)
    ensures ShapeOfFields(fs).keys == Dedup(KeysOf(fs))
  {
    if fs != [] {
      var init := fs[..|fs| - 1];
      ShapeKeysAreFirstOccurrences(init);
      ShapeFieldsAreFieldKeys(init);
      DedupMembership(KeysOf(init), fs[|fs| - 1].key);
      assert KeysOf(fs)[..|fs| - 1] == KeysOf(init);
    }
  }

  /** A key validates with the last field declared under it. */
  lemma {:induction false} ShapeLastFieldWins(fs: seq<FormField>, i: nat)
    requires i < |fs|
    requires forall j :: i < j < |fs| ==> fs[j].key != fs[i].key
    ensures fs[i].key in ShapeOfFields(fs).fields
    ensures ShapeOfFields(fs).fields[fs[i].key] == fs[i]
  {
    if i < |fs| - 1 {
      ShapeLastFieldWins(fs[..|fs| - 1], i);
    }
  }

  /** `buildFormSchema`: assign every field of every section into the shape, section by section. */
  method BuildFormSchema(sections: seq<FormSection>) returns (shape: Shape)
    ensures shape == ShapeOf(sections)
  {
    shape := Shape([], map[]);
    for i := 0 to |sections|
      invariant shape == ShapeOfFields(AllFields(sections[..i]))
    {
      var fields := sections[i].fields;
      ghost var before := AllFields(sections[..i]);
      assert before + fields[..0] == before;
      for j := 0 to |fields|
        invariant shape == ShapeOfFields(before + fields[..j])
      {
        shape := Assign(shape, fields[j]);
        assert (before + fields[..j + 1])[..|before| + j] == before + fields[..j];
      }
      assert sections[..i + 1][..i] == sections[..i];
      assert fields[..|fields|] == fields;
    }
    assert sections[..|sections|] == sections;
  }

  /** The shape of a set of sections has exactly the field keys of those sections, each once and in order. */
  lemma ShapeOfSections(sections: seq<FormSection>)
    ensures Distinct(ShapeOf(sections).keys)
    ensures ShapeOf(sections).keys == Dedup(KeysOf(AllFields(sections)))
    ensures forall k :: k in ShapeOf(sections).keys <==> k in ShapeOf(sections).fields
  {
    var fs := AllFields(sections);
    ShapeKeysAreFirstOccurrences(fs);
    ShapeFieldsAreFieldKeys(fs);
    forall k ensures k in ShapeOf(sections).keys <==> k in ShapeOf(sections).fields {
      DedupMembership(KeysOf(fs), k);
    }
  }

  /** A shape whose keys all have a field, as ShapeOf builds it. */
  ghost predicate WellFormed(sh: Shape) {
    forall k :: k in sh.keys ==> k in sh.fields
  }

  /**
   * `z.object(shape).safeParse(values)` over the given keys, each value checked
   * by the field rule `rule`: the first key whose value fails decides the first
   * issue; otherwise every key maps to its parsed value and keys outside the
   * shape are dropped.
   */
  function ParseKeys(sh: Shape, keys: seq<string>, values: Values, rule: (FormField, Value) -> Result<Value, Issue>): (r: Result<Values, Issue>)
    requires forall k :: k in keys ==> k in sh.fields
    ensures r.Ok? ==> r.value.Keys == set k | k in keys
    ensures r.Ok? <==> forall i :: 0 <= i < |keys| ==> rule(sh.fields[keys[i]], Lookup(values, keys[i])).Ok?
    ensures r.Ok? ==> forall k :: k in keys ==> rule(sh.fields[k], Lookup(values, k)) == Ok(r.value[k])
  {
    if keys == [] then Ok(map[])
    else
      var k := keys[0];
      var head := rule(sh.fields[k], Lookup(values, k));
      if head.Err? then Err(head.error)
      else
        var rest := ParseKeys(sh, keys[1..], values, rule);
        if rest.Err? then Err(rest.error)
        else
          assert forall x :: x in keys <==> x == k || x in keys[1..];
          Ok(rest.value[k := head.value])
  }

  /** A failed parse reports the issue of the first key, in shape order, whose value fails. */
  lemma {:induction false} ParseKeysFirstIssue(sh: Shape, keys: seq<string>, values: Values, rule: (FormField, Value) -> Result<Value, Issue>)
    requires forall k :: k in keys ==> k in sh.fields
    requires ParseKeys(sh, keys, values, rule).Err?
    ensures exists i :: (0 <= i < |keys| &&
      rule(sh.fields[keys[i]], Lookup(values, keys[i])) == Err(ParseKeys(sh, keys, values, rule).error) &&
      forall j :: 0 <= j < i ==> rule(sh.fields[keys[j]], Lookup(values, keys[j])).Ok?)
  {
    var head := rule(sh.fields[keys[0]], Lookup(values, keys[0]));
    if head.Ok? {
      var rest := ParseKeys(sh, keys[1..], values, rule);
      ParseKeysFirstIssue(sh, keys[1..], values, rule);
      var i :| 0 <= i < |keys| - 1 &&
        rule(sh.fields[keys[1..][i]], Lookup(values, keys[1..][i])) == Err(rest.error) &&
        forall j :: 0 <= j < i ==> rule(sh.fields[keys[1..][j]], Lookup(values, keys[1..][j])).Ok?;
      assert keys[i + 1] == keys[1..][i];
      assert forall j :: 1 <= j <= i ==> keys[j] == keys[1..][j - 1];
    }
  }

  /** `schema.safeParse(values)` (or `schema.partial().safeParse` when `partial`) under the rule set `rules`. */
  function Parse(sh: Shape, values: Values, lib: Library, rules: Rules, partial: bool): (r: Result<Values, Issue>)
    requires WellFormed(sh)
    ensures r.Ok? ==> r.value.Keys == set k | k in sh.keys
    ensures r.Ok? <==> forall k :: k in sh.keys ==> ParseFieldPartial(sh.fields[k], Lookup(values, k), lib, rules, partial).Ok?
    ensures r.Ok? ==> forall k :: k in sh.keys ==> ParseFieldPartial(sh.fields[k], Lookup(values, k), lib, rules, partial) == Ok(r.value[k])
  {
    ParseKeys(sh, sh.keys, values, (f, v) => ParseFieldPartial(f, v, lib, rules, partial))
  }

  /** Every key of a built schema has its field, so the built schema can always parse. */
  lemma ShapeOfWellFormed(sections: seq<FormSection>)
    ensures WellFormed(ShapeOf(sections))
  {
    ShapeOfSections(sections);
  }
}
