/**
 * The technology list of the new-project form (`NewProject`): the text typed into the
 * input is added trimmed, once, and a chip's remove button filters its technology out.
 */
module NewProjectAdmin {
  import opened JsText

  /** No technology occurs twice. */
  predicate NoDuplicates(l: seq<string>) {
    forall i, j :: 0 <= i < j < |l| ==> l[i] != l[j]
  }

  /** What every list the form builds looks like: no duplicates, and every entry is
      non-empty with no whitespace around it. */
  predicate WellFormed(l: seq<string>) {
    NoDuplicates(l) && forall i :: 0 <= i < |l| ==> l[i] != "" && Trim(l[i]) == l[i]
  }

  /** The guard of `handleAddTechnology`: the trimmed input is not empty and not listed. */
  predicate Accepts(technologies: seq<string>, newTech: string) {
    Trim(newTech) != "" && Trim(newTech) !in technologies
  }

  /** `l.filter((t) => t !== tech)`. */
  function FilterOut(l: seq<string>, tech: string): (r: seq<string>)
    ensures tech !in r
    ensures forall t :: t != tech ==> (t in r <==> t in l)
    ensures tech !in l ==> r == l
  {
    if l == [] then []
    else
      var init := l[..|l| - 1];
      var last := l[|l| - 1];
      assert l == init + [last];
      FilterOut(init, tech) + (if last != tech then [last] else [])
  }

  /** Removing a listed technology from a list without duplicates deletes exactly its
      entry; the entries before and after it keep their order. */
  lemma {:induction false} FilterOutAt(l: seq<string>, i: nat)
    requires NoDuplicates(l) && i < |l|
    ensures FilterOut(l, l[i]) == l[..i] + l[i + 1..]
  {
    var init := l[..|l| - 1];
    if i == |l| - 1 {
      assert l[i] !in init;
    } else {
      assert NoDuplicates(init);
      FilterOutAt(init, i);
      assert init[i] == l[i];
      assert l[i + 1..] == init[i + 1..] + [l[|l| - 1]];
    }
  }

  /** Filtering keeps a list well formed. */
  lemma {:induction false} FilterOutWellFormed(l: seq<string>, tech: string)
    requires WellFormed(l)
    ensures WellFormed(FilterOut(l, tech))
  {
    if l != [] {
      var init := l[..|l| - 1];
      var last := l[|l| - 1];
      assert WellFormed(init);
      FilterOutWellFormed(init, tech);
      var rest := FilterOut(init, tech);
      assert last !in init;
      var r := FilterOut(l, tech);
      assert forall k :: 0 <= k < |rest| ==> rest[k] in init;
      assert forall k :: 0 <= k < |r| ==> r[k] in l;
    }
  }

  /** Adding an accepted technology appends its trimmed text and keeps the list well
      formed. */
  lemma AddKeepsWellFormed(l: seq<string>, newTech: string)
    requires WellFormed(l) && Accepts(l, newTech)
    ensures WellFormed(l + [Trim(newTech)])
  {
    TrimIdempotent(newTech);
  }

  /** Adding a technology and then removing it gives the original list back. */
  lemma AddThenRemove(l: seq<string>, newTech: string)
    requires Accepts(l, newTech)
    ensures FilterOut(l + [Trim(newTech)], Trim(newTech)) == l
  {
    assert (l + [Trim(newTech)])[..|l|] == l;
  }

  class NewProjectForm {
    /** The `technologies` state. */
    var technologies: seq<string>
    /** The `newTech` state: the text in the input. */
    var newTech: string

    ghost predicate Valid()
      reads this
    {
      WellFormed(technologies)
    }

    constructor ()
      ensures Valid() && technologies == [] && newTech == ""
    {
      technologies := [];
      newTech := "";
    }

    /** The input's `onChange`. */
    method SetNewTech(text: string)
      modifies this
      ensures newTech == text && technologies == old(technologies)
    {
      newTech := text;
    }

    /** `handleAddTechnology`: an accepted input is appended trimmed and the input
        cleared; a rejected one leaves both the list and the input as they were. */
    method HandleAddTechnology()
      requires Valid()
      modifies this
      ensures Valid()
      ensures Accepts(old(technologies), old(newTech)) ==>
                technologies == old(technologies) + [Trim(old(newTech))] && newTech == ""
      ensures !Accepts(old(technologies), old(newTech)) ==>
                technologies == old(technologies) && newTech == old(newTech)
    {
      var tech := Trim(newTech);
      if tech != "" && tech !in technologies {
        AddKeepsWellFormed(technologies, newTech);
        technologies := technologies + [tech];
        newTech := "";
      }
    }

    /** `handleRemoveTechnology(tech)`. */
    method HandleRemoveTechnology(tech: string)
      requires Valid()
      modifies this
      ensures Valid()
      ensures technologies == FilterOut(old(technologies), tech) && newTech == old(newTech)
    {
      FilterOutWellFormed(technologies, tech);
      technologies := FilterOut(technologies, tech);
    }

    /** The `{technologies.length} added` counter. */
    function Counter(): nat
      reads this
    {
      |technologies|
    }

    /** Whether "No technologies added yet" is shown. */
    predicate ShowsPlaceholder()
      reads this
    {
      |technologies| == 0
    }
  }

  /** An accepted add raises the counter by one and hides the placeholder; a rejected add
      changes neither. */
  method AddUpdatesCounter(form: NewProjectForm)
    requires form.Valid()
    modifies form
    ensures Accepts(old(form.technologies), old(form.newTech)) ==>
              form.Counter() == old(form.Counter()) + 1 && !form.ShowsPlaceholder()
    ensures !Accepts(old(form.technologies), old(form.newTech)) ==>
              form.Counter() == old(form.Counter()) && form.ShowsPlaceholder() == old(form.ShowsPlaceholder())
  {
    form.HandleAddTechnology();
  }
}
