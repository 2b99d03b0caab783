/**
 * The skills admin page (`SkillsAdmin`): which category tab is active, and the
 * confirmed or prompted actions that add and delete categories and delete skills
 * through the skills store.
 */
module SkillsAdmin {
  import opened Wrappers
  import opened JsText
  import opened JsObject
  import opened SkillsContext

  /** `keys[0] || ""`: the first key, or `""` when there is none. */
  function FirstOr(keys: seq<string>): string {
    if keys == [] then "" else keys[0]
  }

  /** The tab active on first render: the first category in key order, or `""`. */
  function InitialActive(s: Store): (c: string)
    ensures c == "" || c in Keys(s)
    ensures s != [] ==> c == s[0].0
  {
    FirstOr(Keys(s))
  }

  /** The tab that becomes active when the active category is deleted: the first other
      category of the store as it was, or `""`. */
  function NextActive(s: Store, deleted: string): string {
    FirstOr(Without(Keys(s), deleted))
  }

  /** The next active tab is what the page would start on for the store left after the
      delete: the first remaining category, never the deleted one (unless it is `""`
      and nothing remains), or `""` when none remain. */
  lemma NextActiveSpec(s: Store, deleted: string)
    ensures NextActive(s, deleted) == InitialActive(CategoryDeleted(s, deleted))
    ensures NextActive(s, deleted) == "" || NextActive(s, deleted) in Keys(CategoryDeleted(s, deleted))
    ensures NextActive(s, deleted) != deleted || deleted == ""
  {
    DeleteCategorySpec(s, deleted);
  }

  /** The guard of `handleAddCategory`: the prompt was not cancelled, the answer is not
      blank, and the answer as typed is not already a category. */
  predicate AddAccepted(s: Store, answer: Option<string>) {
    answer.Some? && answer.value != "" && Trim(answer.value) != "" && answer.value !in Keys(s)
  }

  /** The store and the active tab after `handleAddCategory` with the prompt's answer. */
  function AfterAddCategory(s: Store, active: string, answer: Option<string>): (Store, string) {
    if AddAccepted(s, answer) then (CategoryAdded(s, Trim(answer.value)), Trim(answer.value))
    else (s, active)
  }

  /** An accepted answer adds the trimmed name (when new) and makes it active; anything
      else changes nothing. Because the duplicate check looks at the untrimmed answer, an
      answer that only differs from an existing category by surrounding whitespace leaves
      the store as it is but still switches to that category. */
  lemma AddCategoryRule(s: Store, active: string, answer: Option<string>)
    ensures var (r, a) := AfterAddCategory(s, active, answer);
      && (AddAccepted(s, answer) ==> a == Trim(answer.value) && a != "" && a in Keys(r)
                                     && Lookup(r, a) == Some(SkillsOf(s, a)))
      && (!AddAccepted(s, answer) ==> r == s && a == active)
      && (AddAccepted(s, answer) && Trim(answer.value) in Keys(s) ==> r == s)
  {
    if AddAccepted(s, answer) {
      var name := Trim(answer.value);
      AddCategorySpec(s, name);
    }
  }

  /** The store and the active tab after `handleDeleteCategory(category)`. */
  function AfterDeleteCategory(s: Store, active: string, category: string, confirmed: bool): (Store, string) {
    if !confirmed then (s, active)
    else (CategoryDeleted(s, category), if active == category then NextActive(s, category) else active)
  }

  /** An unconfirmed delete changes nothing. A confirmed one removes the category with
      all its skills; the active tab moves on only when it was the deleted category. */
  lemma DeleteCategoryRule(s: Store, active: string, category: string, confirmed: bool)
    ensures var (r, a) := AfterDeleteCategory(s, active, category, confirmed);
      && (!confirmed ==> r == s && a == active)
      && (confirmed ==> category !in Keys(r)
                        && (forall c :: c != category ==> Lookup(r, c) == Lookup(s, c))
                        && (active != category ==> a == active)
                        && (active == category ==> a == InitialActive(r)))
  {
    DeleteCategorySpec(s, category);
    NextActiveSpec(s, category);
  }

  class SkillsAdminPage {
    /** The skills store the page works on. */
    var store: SkillsProvider
    /** The `activeCategory` state. */
    var activeCategory: string

    ghost predicate Valid()
      reads this, store
    {
      store.Valid()
    }

    constructor (store: SkillsProvider)
      requires store.Valid()
      ensures Valid() && this.store == store && activeCategory == InitialActive(store.skills)
    {
      this.store := store;
      activeCategory := InitialActive(store.skills);
    }

    /** `handleDelete(id)`; `confirmed` is the answer to `window.confirm`. */
    method HandleDelete(id: string, confirmed: bool)
      requires Valid()
      modifies store
      ensures Valid()
      ensures store.skills == if confirmed then SkillDeleted(old(store.skills), id) else old(store.skills)
      ensures store.loading == old(store.loading) && store.storage == old(store.storage)
    {
      if confirmed {
        store.DeleteSkill(id);
      }
    }

    /** `handleAddCategory`; `answer` is what `window.prompt` returns, `None` for null. */
    method HandleAddCategory(answer: Option<string>)
      requires Valid()
      modifies this, store
      ensures Valid() && store == old(store)
      ensures (store.skills, activeCategory) == AfterAddCategory(old(store.skills), old(activeCategory), answer)
      ensures store.loading == old(store.loading) && store.storage == old(store.storage)
    {
      if answer.Some? && answer.value != "" && Trim(answer.value) != "" && answer.value !in Keys(store.skills) {
        store.AddCategory(Trim(answer.value));
        activeCategory := Trim(answer.value);
      }
    }

    /** `handleDeleteCategory(category)`; `confirmed` is the answer to `window.confirm`. */
    method HandleDeleteCategory(category: string, confirmed: bool)
      requires Valid()
      modifies this, store
      ensures Valid() && store == old(store)
      ensures (store.skills, activeCategory)
              == AfterDeleteCategory(old(store.skills), old(activeCategory), category, confirmed)
      ensures store.loading == old(store.loading) && store.storage == old(store.storage)
    {
      if confirmed {
        var categories := Keys(store.skills);
        store.DeleteCategory(category);
        if activeCategory == category {
          activeCategory := FirstOr(Without(categories, category));
        }
      }
    }
  }
}
