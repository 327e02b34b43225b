/**
 * The intake wizard: which sections it shows for the services selected so
 * far, which step it is on, and how "Save & Continue", "Previous", a click
 * on a step and "Submit intake" change its state. The form's values, the
 * draft ids, the step index and the status messages are fields of a class
 * that those handlers update; the server actions they call are the methods
 * of the Intake module, run against the same database.
 */
module Wizard {

  import opened Wrappers
  import opened Forms
  import opened Tables
  import Schema
  import Intake
  import FieldRenderer

  // ---------------------------------------------------------------------------
  // Visible sections

  /** The `selected_services` the form holds, when it holds a list. */
  function SelectedServices(values: Values): (sel: seq<string>)
    ensures Lookup(values, Intake.SelectedServicesField).List? ==> sel == Lookup(values, Intake.SelectedServicesField).items
    ensures !Lookup(values, Intake.SelectedServicesField).List? ==> sel == []
  {
    var v := Lookup(values, Intake.SelectedServicesField);
    if v.List? then v.items else []
  }

  /** Whether the wizard shows `section` for the selected services `selected`. */
  predicate Visible(section: FormSection, selected: seq<string>) {
    || section.alwaysVisible
    || section.serviceKeys.None?
    || section.serviceKeys.value == []
    || (selected != [] && exists k :: k in section.serviceKeys.value && k in selected)
  }

  /** `visibleSections`: the sections the wizard shows, in their declared order. */
  function VisibleSections(sections: seq<FormSection>, selected: seq<string>): (r: seq<FormSection>)
    ensures |r| <= |sections|
    ensures forall s :: s in r ==> s in sections && Visible(s, selected)
    ensures forall i :: 0 <= i < |sections| && Visible(sections[i], selected) ==> sections[i] in r
  {
    if sections == [] then []
    else
      var init := sections[..|sections| - 1];
      var last := sections[|sections| - 1];
      assert sections == init + [last];
      VisibleSections(init, selected) + (if Visible(last, selected) then [last] else [])
  }

  /**
   * The filter keeps the declared order: the sections shown from a list
   * made of two parts are those shown from the first part, followed by those
   * shown from the second.
   */
  lemma {:induction false} VisibleSectionsKeepOrder(a: seq<FormSection>, b: seq<FormSection>, selected: seq<string>)
    ensures VisibleSections(a + b, selected) == VisibleSections(a, selected) + VisibleSections(b, selected)
  {
    if b == [] {
      assert a + b == a;
    } else {
      var init := b[..|b| - 1];
      var last := b[|b| - 1];
      assert (a + b)[..|a + b| - 1] == a + init;
      assert (a + b)[|a + b| - 1] == last;
      VisibleSectionsKeepOrder(a, init, selected);
    }
  }

  /**
   * With no service selected, a section is shown exactly when it is always
   * visible or no service gates it.
   */
  lemma NoServiceShowsOnlyUngated(section: FormSection)
    ensures Visible(section, []) <==>
      section.alwaysVisible || section.serviceKeys.None? || section.serviceKeys.value == []
  {
  }

  /** A section gated by services is shown once one of its services is selected. */
  lemma SelectingAServiceShowsItsSections(section: FormSection, selected: seq<string>, k: string)
    requires section.serviceKeys.Some? && k in section.serviceKeys.value && k in selected
    ensures Visible(section, selected)
  {
  }

  // ---------------------------------------------------------------------------
  // Steps

  /** `Math.max(0, Math.min(index, count - 1))`. */
  function Clamp(index: int, count: nat): (r: int)
    ensures count > 0 ==> 0 <= r < count
    ensures count == 0 ==> r == 0
    ensures 0 <= index < count ==> r == index
    ensures index < 0 ==> r == 0
    ensures count > 0 && index >= count ==> r == count - 1
  {
    var m := if index < count - 1 then index else count - 1;
    if m < 0 then 0 else m
  }

  /**
   * `currentSection`: the section at the step index, or the last visible
   * section when the index is out of range; nothing when no section is visible.
   */
  function CurrentSection(visible: seq<FormSection>, index: int): (r: Option<FormSection>)
    ensures r.None? <==> visible == []
    ensures 0 <= index < |visible| ==> r == Some(visible[index])
    ensures visible != [] && !(0 <= index < |visible|) ==> r == Some(visible[|visible| - 1])
  {
    if 0 <= index < |visible| then Some(visible[index])
    else if visible != [] then Some(visible[|visible| - 1])
    else None
  }

  /** After a successful save, each draft id is the returned one when there is one, else the previous one. */
  function MergeDraft(prev: Intake.DraftContext, result: Intake.SaveSectionResult): (d: Intake.DraftContext)
    ensures result.companyId.Some? ==> d.companyId == result.companyId
    ensures result.companyId.None? ==> d.companyId == prev.companyId
    ensures result.questionnaireId.Some? ==> d.questionnaireId == result.questionnaireId
    ensures result.questionnaireId.None? ==> d.questionnaireId == prev.questionnaireId
  {
    Intake.DraftContext(
      if result.companyId.Some? then result.companyId else prev.companyId,
      if result.questionnaireId.Some? then result.questionnaireId else prev.questionnaireId)
  }

  /** `form.trigger(fields)`: every field of the section passes its rule. */
  predicate FieldsValid(fields: seq<FormField>, values: Values, lib: Schema.Library): (ok: bool)
    ensures ok ==> forall i :: 0 <= i < |fields| && fields[i].required ==> Lookup(values, fields[i].key) != Absent
  {
    forall i :: 0 <= i < |fields| ==> Schema.ParseFieldAsWritten(fields[i], Lookup(values, fields[i].key), lib).Ok?
  }

  /**
   * The form values once the wizard has rendered step `index`: the
   * controllers of the current section's fields put their defaults under
   * every key still undefined. Registering never changes the selected
   * services, so the visible sections and the current section are still
   * the ones the render started from.
   */
  function Rendered(sections: seq<FormSection>, values: Values, index: int): (r: Values)
    ensures SelectedServices(r) == SelectedServices(values)
    ensures var cur := CurrentSection(VisibleSections(sections, SelectedServices(values)), index);
      cur.Some? ==> forall i :: 0 <= i < |cur.value.fields| ==> Lookup(r, cur.value.fields[i].key) != Absent
    ensures forall k :: k in values && values[k] != Absent ==> k in r && r[k] == values[k]
  {
    var cur := CurrentSection(VisibleSections(sections, SelectedServices(values)), index);
    if cur.Some? then FieldRenderer.WithDefaults(values, cur.value.fields) else values
  }

  /** Rendering the same step again changes nothing. */
  lemma RenderedIdempotent(sections: seq<FormSection>, values: Values, index: int)
    ensures Rendered(sections, Rendered(sections, values, index), index) == Rendered(sections, values, index)
  {
    var cur := CurrentSection(VisibleSections(sections, SelectedServices(values)), index);
    if cur.Some? {
      FieldRenderer.WithDefaultsIdempotent(values, cur.value.fields);
    }
  }

  /**
   * As written, an optional url field of the first step holds "" once the
   * wizard has first rendered, and "" fails the url rule, so "Save &
   * Continue" stays on the step; an undefined value would have passed.
   */
  lemma UntouchedOptionalUrlBlocksNext(sections: seq<FormSection>, lib: Schema.Library, i: nat)
    requires Schema.RejectsBlank(lib)
    requires VisibleSections(sections, []) != []
    requires var fs := VisibleSections(sections, [])[0].fields;
      i < |fs| && fs[i].kind.Url? && !fs[i].required && FieldRenderer.FirstWithKey(fs, i)
    ensures var fs := VisibleSections(sections, [])[0].fields;
      && Lookup(Rendered(sections, map[], 0), fs[i].key) == Str("")
      && !FieldsValid(fs, Rendered(sections, map[], 0), lib)
      && Schema.ParseFieldAsWritten(fs[i], Absent, lib).Ok?
  {
    var fs := VisibleSections(sections, [])[0].fields;
    var values := Rendered(sections, map[], 0);
    assert Lookup(values, fs[i].key) == Str("");
    Schema.BlankOptionalChoiceAsWritten(fs[i], lib);
    assert !Schema.ParseFieldAsWritten(fs[i], Lookup(values, fs[i].key), lib).Ok?;
  }

  /**
   * As written, a required number field of the first step holds "" once the
   * wizard has first rendered, and "" passes its rule as 0: when that field
   * is the one the form schema checks its key with, a successful save of
   * the step stores 0 under the key. An undefined value would have failed.
   */
  lemma UntouchedRequiredNumberSavedAsZero(sections: seq<FormSection>, lib: Schema.Library, i: nat)
    requires VisibleSections(sections, []) != []
    requires var fs := VisibleSections(sections, [])[0].fields;
      i < |fs| && fs[i].kind.Number? && fs[i].required && FieldRenderer.FirstWithKey(fs, i)
    requires var f := VisibleSections(sections, [])[0].fields[i];
      f.key in Schema.ShapeOf(sections).fields && Schema.ShapeOf(sections).fields[f.key] == f
    ensures var f := VisibleSections(sections, [])[0].fields[i];
      var values := Rendered(sections, map[], 0);
      && Schema.ParseFieldAsWritten(f, Lookup(values, f.key), lib) == Ok(Num(0))
      && !Schema.ParseFieldAsWritten(f, Absent, lib).Ok?
      && (Intake.ParsePartial(sections, values, lib).Ok? ==>
            f.key in Intake.ParsePartial(sections, values, lib).value &&
            Intake.ParsePartial(sections, values, lib).value[f.key] == Num(0))
  {
    var f := VisibleSections(sections, [])[0].fields[i];
    var values := Rendered(sections, map[], 0);
    assert Lookup(values, f.key) == Str("");
    Schema.BlankNumberAsWritten(f, lib);
    Schema.ShapeOfSections(sections);
    assert f.key in Schema.ShapeOf(sections).keys;
  }

  /** The status line under the form. */
  datatype SaveStatus = Idle | Saving(message: string) | Success(message: string) | Failed(message: string)

  /** The banner shown after a submission. */
  datatype SubmitMessage = SubmitSucceeded(text: string) | SubmitFailed(text: string)

  /** The status lines the wizard shows. */
  const SaveFailedText := "Could not save progress."
  const SavingText := "Saving progress..."
  const AllSavedText := "All responses saved."
  const SavedText := "Progress saved."
  const FinaliseFailedText := "We could not finalise the questionnaire."

  const SubmittedText := "Questionnaire submitted successfully. You can revisit this page to provide additional details later."
  const SubmitFallbackText := "Something went wrong while submitting the questionnaire."

  /** The message a failed submission shows: an `Error`'s own, or the fallback. */
  function SubmitErrorText(f: Failure): string {
    match f
    case Error(message) => message
    case Opaque => SubmitFallbackText
  }

  // ---------------------------------------------------------------------------
  // The component

  class IntakeWizard {
    /** `onboardingSections`. */
    const sections: seq<FormSection>

    var values: Values
    var draft: Intake.DraftContext
    var saveStatus: SaveStatus
    var isSubmitting: bool
    var submitMessage: Option<SubmitMessage>
    var currentStepIndex: int

    /** The sections shown for the values the form holds now. */
    function Visible(): seq<FormSection>
      reads this
    {
      VisibleSections(sections, SelectedServices(values))
    }

    /**
     * The wizard as first rendered: no draft, first step, and the form
     * holding only the defaults the first visible section's fields register.
     */
    constructor (sections: seq<FormSection>)
      ensures this.sections == sections
      ensures values == Rendered(sections, map[], 0) && draft == Intake.DraftContext(None, None)
      ensures saveStatus == Idle && !isSubmitting && submitMessage.None? && currentStepIndex == 0
    {
      this.sections := sections;
      values := Rendered(sections, map[], 0);
      draft := Intake.DraftContext(None, None);
      saveStatus := Idle;
      isSubmitting := false;
      submitMessage := None;
      currentStepIndex := 0;
    }

    /**
     * The render after a state change: the fields of the section now current
     * register their defaults. The visible sections stay as they were.
     */
    method ShowCurrentSection()
      modifies this
      ensures values == Rendered(sections, old(values), currentStepIndex)
      ensures Visible() == old(Visible())
      ensures draft == old(draft) && saveStatus == old(saveStatus) && currentStepIndex == old(currentStepIndex)
      ensures isSubmitting == old(isSubmitting) && submitMessage == old(submitMessage)
    {
      values := Rendered(sections, values, currentStepIndex);
    }

    /** A field's `onChange`: the form holds `v` under `key`, then the wizard renders again. */
    method SetValue(key: string, v: Value)
      modifies this
      ensures values == Rendered(sections, old(values)[key := v], currentStepIndex)
      ensures draft == old(draft) && saveStatus == old(saveStatus) && currentStepIndex == old(currentStepIndex)
      ensures isSubmitting == old(isSubmitting) && submitMessage == old(submitMessage)
    {
      values := values[key := v];
      ShowCurrentSection();
    }

    /** `goToStep`: move to `index`, clamped to the visible steps, and render that step. */
    method GoToStep(index: int)
      modifies this
      ensures currentStepIndex == Clamp(index, |old(Visible())|)
      ensures values == Rendered(sections, old(values), currentStepIndex) && Visible() == old(Visible())
      ensures draft == old(draft) && saveStatus == old(saveStatus)
      ensures isSubmitting == old(isSubmitting) && submitMessage == old(submitMessage)
    {
      currentStepIndex := Clamp(index, |Visible()|);
      ShowCurrentSection();
    }

    /** `handlePrevious`: one step back, never before the first. */
    method HandlePrevious()
      modifies this
      ensures currentStepIndex == Clamp(old(currentStepIndex) - 1, |old(Visible())|)
      ensures old(currentStepIndex) == 0 ==> currentStepIndex == 0
      ensures values == Rendered(sections, old(values), currentStepIndex) && Visible() == old(Visible())
      ensures draft == old(draft) && saveStatus == old(saveStatus)
      ensures isSubmitting == old(isSubmitting) && submitMessage == old(submitMessage)
    {
      GoToStep(currentStepIndex - 1);
    }

    /**
     * `persistCurrentSection`: save the section `sectionKey` with the form's
     * values and the draft ids; on success merge the returned ids into the
     * draft. Reports whether the save succeeded.
     */
    method PersistCurrentSection(db: Database, b: Backend, lib: Schema.Library, user: Option<Id>, sectionKey: string) returns (saved: bool)
      modifies this, db
      ensures var res := Intake.SaveSpec(old(db.State()), b, sections,
                                         Intake.ParsePartial(sections, values, lib), user, sectionKey, old(draft));
        && db.State() == res.1
        && saved == res.0.status.SaveSuccess?
        && draft == (if saved then MergeDraft(old(draft), res.0) else old(draft))
        && saveStatus == (if saved then Success(res.0.message.GetOr(SavedText))
                          else Failed(res.0.message.GetOr(SaveFailedText)))
      ensures values == old(values) && currentStepIndex == old(currentStepIndex)
      ensures isSubmitting == old(isSubmitting) && submitMessage == old(submitMessage)
    {
      saveStatus := Saving(SavingText);
      var result := Intake.SaveIntakeSection(db, b, sections, lib, user, sectionKey, values, draft);
      saved := SettleSave(result);
    }

    /** What `persistCurrentSection` does once `saveIntakeSection` has returned `result`. */
    method SettleSave(result: Intake.SaveSectionResult) returns (saved: bool)
      modifies this
      ensures saved == result.status.SaveSuccess?
      ensures draft == (if saved then MergeDraft(old(draft), result) else old(draft))
      ensures saveStatus == (if saved then Success(result.message.GetOr(SavedText))
                             else Failed(result.message.GetOr(SaveFailedText)))
      ensures values == old(values) && currentStepIndex == old(currentStepIndex)
      ensures isSubmitting == old(isSubmitting) && submitMessage == old(submitMessage)
    {
      if result.status.SaveSuccess? {
        draft := MergeDraft(draft, result);
        saveStatus := Success(result.message.GetOr(SavedText));
        return true;
      }
      saveStatus := Failed(result.message.GetOr(SaveFailedText));
      return false;
    }

    /**
     * `handleNext`: validate the current section's fields, save it, and only
     * when both succeed move one step on; the step then shown registers its
     * fields' defaults. With no visible section the handler fails on
     * `currentSection.fields` before changing anything.
     */
    method HandleNext(db: Database, b: Backend, lib: Schema.Library, user: Option<Id>)
      modifies this, db
      ensures var cur := CurrentSection(old(Visible()), old(currentStepIndex));
        cur.None? || !FieldsValid(cur.value.fields, old(values), lib) ==>
          && db.State() == old(db.State()) && currentStepIndex == old(currentStepIndex)
          && draft == old(draft) && saveStatus == old(saveStatus)
      ensures var cur := CurrentSection(old(Visible()), old(currentStepIndex));
        cur.Some? && FieldsValid(cur.value.fields, old(values), lib) ==>
          var res := Intake.SaveSpec(old(db.State()), b, sections,
                                     Intake.ParsePartial(sections, old(values), lib), user, cur.value.key, old(draft));
          && db.State() == res.1
          && currentStepIndex == (if res.0.status.SaveSuccess? then Clamp(old(currentStepIndex) + 1, |old(Visible())|)
                                  else old(currentStepIndex))
          && draft == (if res.0.status.SaveSuccess? then MergeDraft(old(draft), res.0) else old(draft))
          && saveStatus == (if res.0.status.SaveSuccess? then Success(res.0.message.GetOr(SavedText))
                            else Failed(res.0.message.GetOr(SaveFailedText)))
      ensures values == Rendered(sections, old(values), currentStepIndex)
      ensures isSubmitting == old(isSubmitting) && submitMessage == old(submitMessage)
    {
      var cur := CurrentSection(Visible(), currentStepIndex);
      if cur.None? {
        return;
      }
      if !FieldsValid(cur.value.fields, values, lib) {
        ShowCurrentSection();
        return;
      }
      var saved := PersistCurrentSection(db, b, lib, user, cur.value.key);
      if !saved {
        ShowCurrentSection();
        return;
      }
      GoToStep(currentStepIndex + 1);
    }

    /**
     * `handleSubmit`: when the whole form validates, submit its parsed
     * values; invalid values leave everything as it was, up to the render
     * that follows.
     */
    method HandleSubmit(db: Database, b: Backend, lib: Schema.Library, user: Option<Id>)
      modifies this, db
      ensures var parsed := Intake.ParseFull(sections, old(values), lib);
        parsed.Err? ==>
          && db.State() == old(db.State()) && values == Rendered(sections, old(values), currentStepIndex) && draft == old(draft)
          && saveStatus == old(saveStatus) && submitMessage == old(submitMessage)
          && isSubmitting == old(isSubmitting)
      ensures var parsed := Intake.ParseFull(sections, old(values), lib);
        parsed.Ok? ==> Submitted(Intake.SubmitSpec(old(db.State()), b, sections, Intake.ParseFull(sections, parsed.value, lib), user, old(draft)),
                                 db.State(), old(draft), old(values), parsed.value)
      ensures currentStepIndex == old(currentStepIndex)
    {
      var shape := Schema.BuildFormSchema(sections);
      Schema.ShapeOfWellFormed(sections);
      var parsed := Schema.Parse(shape, values, lib, Schema.AsWritten, false);
      assert parsed == Intake.ParseFull(sections, values, lib);
      if parsed.Err? {
        ShowCurrentSection();
        return;
      }
      BeginSubmit();
      SubmitValues(db, b, lib, user, parsed.value);
    }

    /**
     * The state after submitting the parsed values `data` and rendering
     * again: on success the returned ids become the draft and the form is
     * reset to `data`; on failure the error is reported and the draft and
     * the form are kept.
     */
    ghost predicate Submitted(res: (Result<Intake.Submitted, Failure>, Tables), t1: Tables,
                              draft0: Intake.DraftContext, values0: Values, data: Values)
      reads this
    {
      && t1 == res.1
      && !isSubmitting
      && (res.0.Ok? ==>
            && draft == Intake.DraftContext(Some(res.0.value.companyId), Some(res.0.value.questionnaireId))
            && values == Rendered(sections, data, currentStepIndex)
            && saveStatus == Success(AllSavedText)
            && submitMessage == Some(SubmitSucceeded(SubmittedText)))
      && (res.0.Err? ==>
            && draft == draft0 && values == Rendered(sections, values0, currentStepIndex)
            && saveStatus == Failed(FinaliseFailedText)
            && submitMessage == Some(SubmitFailed(SubmitErrorText(res.0.error))))
    }

    /** The callback `form.handleSubmit` runs with the parsed values `data`. */
    method SubmitValues(db: Database, b: Backend, lib: Schema.Library, user: Option<Id>, data: Values)
      modifies this, db
      ensures Submitted(Intake.SubmitSpec(old(db.State()), b, sections, Intake.ParseFull(sections, data, lib), user, old(draft)),
                        db.State(), old(draft), old(values), data)
      ensures currentStepIndex == old(currentStepIndex)
    {
      var result := Intake.SubmitIntake(db, b, sections, lib, user, data, draft);
      Settle(result, db.State(), data);
    }

    /** `setIsSubmitting(true)` and `setSubmitMessage(null)` while the submission is in flight. */
    method BeginSubmit()
      modifies this
      ensures isSubmitting && submitMessage.None?
      ensures values == old(values) && draft == old(draft) && saveStatus == old(saveStatus)
      ensures currentStepIndex == old(currentStepIndex)
    {
      isSubmitting := true;
      submitMessage := None;
    }

    /** What the callback does once `submitIntake` has returned `result`, leaving the tables `t`, and the render after it. */
    method Settle(result: Result<Intake.Submitted, Failure>, ghost t: Tables, data: Values)
      modifies this
      ensures Submitted((result, t), t, old(draft), old(values), data)
      ensures currentStepIndex == old(currentStepIndex)
    {
      if result.Ok? {
        draft := Intake.DraftContext(Some(result.value.companyId), Some(result.value.questionnaireId));
        saveStatus := Success(AllSavedText);
        submitMessage := Some(SubmitSucceeded(SubmittedText));
        values := data;
      } else {
        submitMessage := Some(SubmitFailed(SubmitErrorText(result.error)));
        saveStatus := Failed(FinaliseFailedText);
      }
      isSubmitting := false;
      ShowCurrentSection();
    }
  }
}
