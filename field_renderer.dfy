/**
 * The value logic of the form field renderer: the value a field starts with,
 * the required rule it registers, and how checkbox inputs change the value.
 */
module FieldRenderer {

  import opened Wrappers
  import opened Forms
  import Schema

  /** The value the form holds for a field before the user touches it. */
  function DefaultValue(kind: FieldKind): (v: Value)
    ensures kind.Checkbox? <==> v == Bool(false)
    ensures (kind.MultiSelect? || kind.CheckboxGroup?) <==> v == List([])
    ensures !kind.Checkbox? && !kind.MultiSelect? && !kind.CheckboxGroup? <==> v == Str("")
  {
    if kind.Checkbox? then Bool(false)
    else if kind.MultiSelect? || kind.CheckboxGroup? then List([])
    else Str("")
  }

  /** The required rule's message, if the field registers one. */
  function RequiredRule(f: FormField): (rule: Option<string>)
    ensures rule.Some? <==> f.required
    ensures rule.Some? ==> rule.value == Schema.RequiredMessage(f)
  {
    if f.required then Some(f.labelText + " is required") else None
  }

  /** The items of a list value; any other value counts as the empty list. */
  function ItemsOf(v: Value): seq<string> {
    if v.List? then v.items else []
  }

  /** The values a field can start with: "", [] or false. */
  predicate IsDefault(v: Value) {
    v == Str("") || v == List([]) || v == Bool(false)
  }

  /** Some field of `fields` is registered under `key`. */
  predicate HasKey(fields: seq<FormField>, key: string) {
    exists i :: 0 <= i < |fields| && fields[i].key == key
  }

  /** `fields[i]` is the first of `fields` with its key, so its controller mounts first. */
  predicate FirstWithKey(fields: seq<FormField>, i: nat)
    requires i < |fields|
  {
    forall j :: 0 <= j < i ==> fields[j].key != fields[i].key
  }

  /**
   * What mounting the controllers of `fields`, in render order, does to the
   * form values: a key whose value is still undefined gets its field's
   * default, so of two fields sharing a key the first one's default wins;
   * every other value stays as it was.
   */
  function WithDefaults(values: Values, fields: seq<FormField>): (r: Values)
    ensures forall k :: k in values && values[k] != Absent ==> k in r && r[k] == values[k]
    ensures forall k :: !HasKey(fields, k) ==> Lookup(r, k) == Lookup(values, k)
    ensures forall k :: Lookup(r, k) == Lookup(values, k) || (Lookup(values, k) == Absent && IsDefault(Lookup(r, k)))
    ensures forall i :: 0 <= i < |fields| ==> Lookup(r, fields[i].key) != Absent
    ensures forall i :: 0 <= i < |fields| && Lookup(values, fields[i].key) == Absent && FirstWithKey(fields, i) ==>
      Lookup(r, fields[i].key) == DefaultValue(fields[i].kind)
    decreases |fields|
  {
    if fields == [] then values
    else
      var f := fields[0];
      var next := if Lookup(values, f.key) == Absent then values[f.key := DefaultValue(f.kind)] else values;
      var r := WithDefaults(next, fields[1..]);
      assert forall i :: 1 <= i < |fields| ==> fields[i] == fields[1..][i - 1];
      r
  }

  /** Mounting the same controllers again changes nothing: every key they register already holds a value. */
  lemma {:induction false} WithDefaultsIdempotent(values: Values, fields: seq<FormField>)
    ensures WithDefaults(WithDefaults(values, fields), fields) == WithDefaults(values, fields)
  {
    DefaultsOfRegistered(WithDefaults(values, fields), fields);
  }

  /** When every field already holds a value, mounting its controller leaves the values as they are. */
  lemma {:induction false} DefaultsOfRegistered(values: Values, fields: seq<FormField>)
    requires forall i :: 0 <= i < |fields| ==> Lookup(values, fields[i].key) != Absent
    ensures WithDefaults(values, fields) == values
    decreases |fields|
  {
    if fields != [] {
      assert Lookup(values, fields[0].key) != Absent;
      assert forall i :: 0 <= i < |fields[1..]| ==> fields[1..][i] == fields[i + 1];
      DefaultsOfRegistered(values, fields[1..]);
    }
  }

  /** Whether the box for `option` of a checkbox group shows as checked. */
  function IsChecked(v: Value, option: string): (checked: bool)
    ensures checked <==> v.List? && option in v.items
  {
    v.List? && option in v.items
  }

  /** `items.filter(value => value !== x)`. */
  function RemoveAll(items: seq<string>, x: string): (r: seq<string>)
    ensures x !in r
    ensures forall i :: 0 <= i < |r| ==> r[i] in items
  {
    if items == [] then []
    else
      var rest := RemoveAll(items[1..], x);
      if items[0] == x then rest else [items[0]] + rest
  }

  /** Every other value keeps its number of occurrences. */
  lemma {:induction false} RemoveAllKeepsOthers(items: seq<string>, x: string, y: string)
    requires y != x
    ensures multiset(RemoveAll(items, x))[y] == multiset(items)[y]
  {
    if items != [] {
      RemoveAllKeepsOthers(items[1..], x, y);
      assert items == [items[0]] + items[1..];
    }
  }

  /** Filtering distributes over concatenation, so the kept elements stay in their order. */
  lemma {:induction false} RemoveAllAppend(a: seq<string>, b: seq<string>, x: string)
    ensures RemoveAll(a + b, x) == RemoveAll(a, x) + RemoveAll(b, x)
  {
    if a != [] {
      var head := if a[0] == x then [] else [a[0]];
      assert (a + b)[1..] == a[1..] + b;
      assert RemoveAll(a + b, x) == head + RemoveAll(a[1..] + b, x);
      RemoveAllAppend(a[1..], b, x);
      assert RemoveAll(a, x) == head + RemoveAll(a[1..], x);
    } else {
      assert a + b == b;
    }
  }

  /** Filtering a list without `x` leaves it as it is. */
  lemma {:induction false} RemoveAllAbsent(items: seq<string>, x: string)
    requires x !in items
    ensures RemoveAll(items, x) == items
  {
    if items != [] {
      assert x !in items[1..];
      RemoveAllAbsent(items[1..], x);
    }
  }

  /** The new value when the box for `option` is checked: the option appended to the current list. */
  function Check(v: Value, option: string): (r: Value)
    ensures r.List? && |r.items| == |ItemsOf(v)| + 1
    ensures r.items[..|r.items| - 1] == ItemsOf(v) && r.items[|r.items| - 1] == option
  {
    List(ItemsOf(v) + [option])
  }

  /** The new value when the box for `option` is unchecked: every occurrence of the option removed. */
  function Uncheck(v: Value, option: string): (r: Value)
    ensures r.List? && r.items == RemoveAll(ItemsOf(v), option)
    ensures !IsChecked(r, option)
  {
    List(RemoveAll(ItemsOf(v), option))
  }

  /** The `onChange` handler of a checkbox-group option. */
  function Toggle(v: Value, option: string, checked: bool): (r: Value)
    ensures IsChecked(r, option) <==> checked
  {
    if checked then Check(v, option) else Uncheck(v, option)
  }

  /** Checking and then unchecking an option that was not checked restores the list. */
  lemma ToggleRoundTrip(v: Value, option: string)
    requires v.List? && !IsChecked(v, option)
    ensures Toggle(Toggle(v, option, true), option, false) == v
  {
    RemoveAllAppend(v.items, [option], option);
    RemoveAllAbsent(v.items, option);
  }

  /** Unchecking keeps every other option, in its order. */
  lemma UncheckKeepsOthers(v: Value, option: string, before: seq<string>, after: seq<string>)
    requires ItemsOf(v) == before + after
    ensures Uncheck(v, option).items == RemoveAll(before, option) + RemoveAll(after, option)
  {
    RemoveAllAppend(before, after, option);
  }

  /** A single checkbox's `onChange`: the value becomes the checked state. */
  function CheckboxValue(checked: bool): (v: Value)
    ensures v.Bool? && v.b == checked
  {
    Bool(checked)
  }

  /** What a single checkbox produces is accepted by its validation rule exactly when the rule allows that state. */
  lemma CheckboxValueValidates(f: FormField, checked: bool, lib: Schema.Library)
    requires f.kind.Checkbox?
    ensures Schema.ParseField(f, CheckboxValue(checked), lib).Ok? <==> checked || !f.required
  {
  }

  /** The corrected rules accept the untouched value of every optional field. */
  lemma OptionalFieldAcceptsDefault(f: FormField, lib: Schema.Library)
    requires !f.required
    ensures Schema.ParseField(f, DefaultValue(f.kind), lib).Ok?
  {
  }

  /**
   * The corrected rules reject the untouched value of every required field,
   * and except for the format and choice kinds the message they report is
   * the renderer's own required-rule message.
   */
  lemma RequiredFieldRejectsDefault(f: FormField, lib: Schema.Library)
    requires f.required && Schema.RejectsBlank(lib)
    requires (f.kind.Select? || f.kind.Radio?) ==> "" !in f.kind.options
    ensures Schema.ParseField(f, DefaultValue(f.kind), lib).Err?
    ensures !Schema.BlankIsRejected(f.kind) ==>
      Some(Schema.IssueMessage(Schema.ParseField(f, DefaultValue(f.kind), lib).error)) == RequiredRule(f)
  {
  }

  /**
   * As written, an optional website field left untouched is rejected with the
   * URL message, and a required number field left untouched is accepted as 0.
   */
  lemma DefaultsAsWritten(lib: Schema.Library)
    requires Schema.RejectsBlank(lib)
    ensures
      var website := FormField("website", "Website", false, Url);
      Schema.ParseFieldAsWritten(website, DefaultValue(website.kind), lib) == Err(Schema.Custom(Schema.UrlMessage))
    ensures
      var employees := FormField("employees", "Employees", true, Number);
      Schema.ParseFieldAsWritten(employees, DefaultValue(employees.kind), lib) == Ok(Num(0))
  {
    Schema.BlankNumberAsWritten(FormField("employees", "Employees", true, Number), lib);
  }
}
