/**
 * The new-skill form (`NewSkill`): its validation schema, its default values, and the
 * submit handler that files the skill in the skills store.
 */
module NewSkillForm {
  import opened Wrappers
  import opened JsObject
  import opened SkillsContext

  /** The form's values; the range input is read as a number. */
  datatype FormValues = FormValues(name: string, level: int, category: string)

  /** A complaint of `skillFormSchema`, one per failed check. */
  datatype Issue = NameRequired | LevelTooLow | LevelTooHigh | CategoryRequired

  /** The issues `skillFormSchema` reports, in field order: name at least one character,
      level from 1 to 100, category at least one character. */
  function Issues(v: FormValues): seq<Issue> {
    (if |v.name| < 1 then [NameRequired] else [])
    + (if v.level < 1 then [LevelTooLow] else [])
    + (if v.level > 100 then [LevelTooHigh] else [])
    + (if |v.category| < 1 then [CategoryRequired] else [])
  }

  /** The schema accepts the values. */
  predicate Valid(v: FormValues) {
    Issues(v) == []
  }

  /** The form is valid exactly when the name and the category are non-empty and the
      level lies in [1, 100]; each issue is reported exactly when its check fails. */
  lemma ValidIff(v: FormValues)
    ensures Valid(v) <==> v.name != "" && 1 <= v.level <= 100 && v.category != ""
    ensures NameRequired in Issues(v) <==> v.name == ""
    ensures LevelTooLow in Issues(v) <==> v.level < 1
    ensures LevelTooHigh in Issues(v) <==> v.level > 100
    ensures CategoryRequired in Issues(v) <==> v.category == ""
  {
  }

  /** The values the form starts with. */
  const Defaults := FormValues("", 75, "")

  /** The defaults fail on the name and the category but not on the level. */
  lemma DefaultsRejected()
    ensures Issues(Defaults) == [NameRequired, CategoryRequired]
    ensures !Valid(Defaults)
  {
  }

  /** The value of the "Add new category..." option. */
  const CustomOption := "custom"

  /** Choosing "Add new category..." passes validation, so a skill submitted with it is
      filed under a category literally named "custom". */
  lemma CustomOptionAccepted(name: string, level: int)
    requires name != "" && 1 <= level <= 100
    ensures Valid(FormValues(name, level, CustomOption))
  {
  }

  /** The skill `onSubmit` hands to `addSkill`: only an id, the name and the level. */
  function SubmittedSkill(v: FormValues, id: string): Skill {
    Skill(id, v.name, v.level, None, None)
  }

  /** Submitting valid values appends a skill with just that name and level at the end of
      the chosen category, creating it when new; no other category changes. */
  lemma SubmitFilesSkill(s: Store, v: FormValues, formId: string, storeId: string)
    requires Valid(v)
    ensures var r := SkillAdded(s, SubmittedSkill(v, formId), v.category, storeId);
      && v.category in Keys(r)
      && (exists skill :: Lookup(r, v.category) == Some(SkillsOf(s, v.category) + [skill])
                          && skill.name == v.name && skill.level == v.level
                          && skill.description.None? && skill.yearsExperience.None?)
      && forall c :: c != v.category ==> Lookup(r, c) == Lookup(s, c)
  {
    AddSkillAppends(s, SubmittedSkill(v, formId), v.category, storeId);
    var skill := WithId(SubmittedSkill(v, formId), storeId);
    assert Lookup(SkillAdded(s, SubmittedSkill(v, formId), v.category, storeId), v.category)
           == Some(SkillsOf(s, v.category) + [skill]);
  }

  const SkillsPath := "/admin/skills"

  class NewSkillPage {
    /** The skills store the page files skills in. */
    var store: SkillsProvider
    /** The `isSubmitting` state. */
    var isSubmitting: bool
    /** The pages pushed on the router, oldest first. */
    var pushed: seq<string>

    ghost predicate Valid()
      reads this, store
    {
      store.Valid()
    }

    constructor (store: SkillsProvider)
      requires store.Valid()
      ensures Valid() && this.store == store && !isSubmitting && pushed == []
    {
      this.store := store;
      isSubmitting := false;
      pushed := [];
    }

    /** The form's `handleSubmit(onSubmit)`: the schema checks the values; with no issue
        `onSubmit` runs. `formId` is the id `onSubmit` generates and `storeId` the one
        `addSkill` would generate in its place were it empty. */
    method Submit(v: FormValues, formId: string, storeId: string) returns (issues: seq<Issue>)
      requires Valid()
      modifies this, store
      ensures Valid() && store == old(store) && pushed == old(pushed)
      ensures issues == Issues(v)
      ensures store.loading == old(store.loading) && store.storage == old(store.storage)
      ensures issues == [] ==>
                isSubmitting && store.skills == SkillAdded(old(store.skills), SubmittedSkill(v, formId), v.category, storeId)
      ensures issues != [] ==>
                isSubmitting == old(isSubmitting) && store.skills == old(store.skills)
    {
      issues := Issues(v);
      if issues == [] {
        isSubmitting := true;
        var newSkill := SubmittedSkill(v, formId);
        store.AddSkill(newSkill, v.category, storeId);
      }
    }

    /** The 500 ms timer `onSubmit` starts has fired: submitting ends and the skills list
        is opened. */
    method SubmitTimerFired()
      modifies this
      ensures !isSubmitting && pushed == old(pushed) + [SkillsPath] && store == old(store)
    {
      isSubmitting := false;
      pushed := pushed + [SkillsPath];
    }
  }
}
