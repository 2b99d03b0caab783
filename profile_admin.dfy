/**
 * The profile editor of the admin area (`ProfileAdmin`): a local copy of the shared
 * profile that the form edits field by field, whose education and experience lists
 * grow by an empty entry and shrink by `splice`, and which is handed back to the shared
 * profile only on submit.
 */
module ProfileAdmin {

  /** The top-level text properties an `<input name=...>` of the form can set. */
  datatype TextField = Name | Title | Email | Phone | Location | Bio | Availability

  /** A social link; its icon component is not part of the model. */
  datatype SocialLink = SocialLink(platform: string, url: string)
  datatype SocialField = Platform | Url

  datatype Education = Education(degree: string, institution: string, period: string, description: string)
  datatype EducationField = Degree | Institution | StudyPeriod | StudyDescription

  datatype Experience = Experience(title: string, company: string, period: string, description: string)
  datatype ExperienceField = JobTitle | Company | JobPeriod | JobDescription

  datatype Profile = Profile(name: string, title: string, email: string, phone: string,
                             location: string, bio: string, availability: string,
                             socialLinks: seq<SocialLink>, education: seq<Education>,
                             experience: seq<Experience>)

  // ---------------------------------------------------------------------------
  // Reading and writing one property

  /** `profile[field]` for a text property. */
  function TextOf(p: Profile, f: TextField): string {
    match f
    case Name => p.name
    case Title => p.title
    case Email => p.email
    case Phone => p.phone
    case Location => p.location
    case Bio => p.bio
    case Availability => p.availability
  }

  /** `{ ...profile, [field]: value }`: the property takes the value, every other text
      property and all three lists stay as they were. */
  function WithText(p: Profile, f: TextField, v: string): (r: Profile)
    ensures TextOf(r, f) == v
    ensures forall g :: g != f ==> TextOf(r, g) == TextOf(p, g)
    ensures r.socialLinks == p.socialLinks && r.education == p.education && r.experience == p.experience
  {
    match f
    case Name => p.(name := v)
    case Title => p.(title := v)
    case Email => p.(email := v)
    case Phone => p.(phone := v)
    case Location => p.(location := v)
    case Bio => p.(bio := v)
    case Availability => p.(availability := v)
  }

  function SocialFieldOf(s: SocialLink, f: SocialField): string {
    match f
    case Platform => s.platform
    case Url => s.url
  }

  /** `{ ...link, [field]: value }`. */
  function WithSocialField(s: SocialLink, f: SocialField, v: string): (r: SocialLink)
    ensures SocialFieldOf(r, f) == v
    ensures forall g :: g != f ==> SocialFieldOf(r, g) == SocialFieldOf(s, g)
  {
    match f
    case Platform => s.(platform := v)
    case Url => s.(url := v)
  }

  function EducationFieldOf(e: Education, f: EducationField): string {
    match f
    case Degree => e.degree
    case Institution => e.institution
    case StudyPeriod => e.period
    case StudyDescription => e.description
  }

  /** `{ ...education, [field]: value }`. */
  function WithEducationField(e: Education, f: EducationField, v: string): (r: Education)
    ensures EducationFieldOf(r, f) == v
    ensures forall g :: g != f ==> EducationFieldOf(r, g) == EducationFieldOf(e, g)
  {
    match f
    case Degree => e.(degree := v)
    case Institution => e.(institution := v)
    case StudyPeriod => e.(period := v)
    case StudyDescription => e.(description := v)
  }

  function ExperienceFieldOf(e: Experience, f: ExperienceField): string {
    match f
    case JobTitle => e.title
    case Company => e.company
    case JobPeriod => e.period
    case JobDescription => e.description
  }

  /** `{ ...experience, [field]: value }`. */
  function WithExperienceField(e: Experience, f: ExperienceField, v: string): (r: Experience)
    ensures ExperienceFieldOf(r, f) == v
    ensures forall g :: g != f ==> ExperienceFieldOf(r, g) == ExperienceFieldOf(e, g)
  {
    match f
    case JobTitle => e.(title := v)
    case Company => e.(company := v)
    case JobPeriod => e.(period := v)
    case JobDescription => e.(description := v)
  }

  // ---------------------------------------------------------------------------
  // The local profile after each handler

  /** After `handleSocialChange(index, field, value)`. */
  function SocialEdited(p: Profile, index: nat, f: SocialField, v: string): Profile
    requires index < |p.socialLinks|
  {
    p.(socialLinks := p.socialLinks[index := WithSocialField(p.socialLinks[index], f, v)])
  }

  /** After `handleEducationChange(index, field, value)`. */
  function EducationEdited(p: Profile, index: nat, f: EducationField, v: string): Profile
    requires index < |p.education|
  {
    p.(education := p.education[index := WithEducationField(p.education[index], f, v)])
  }

  /** After `handleExperienceChange(index, field, value)`. */
  function ExperienceEdited(p: Profile, index: nat, f: ExperienceField, v: string): Profile
    requires index < |p.experience|
  {
    p.(experience := p.experience[index := WithExperienceField(p.experience[index], f, v)])
  }

  /** Editing a field of a social link changes that field of that link only: the list
      keeps its length, every other link and every other property is unchanged. */
  lemma SocialEditSpec(p: Profile, index: nat, f: SocialField, v: string)
    requires index < |p.socialLinks|
    ensures var r := SocialEdited(p, index, f, v);
      && |r.socialLinks| == |p.socialLinks|
      && SocialFieldOf(r.socialLinks[index], f) == v
      && (forall g :: g != f ==> SocialFieldOf(r.socialLinks[index], g) == SocialFieldOf(p.socialLinks[index], g))
      && (forall j :: 0 <= j < |p.socialLinks| && j != index ==> r.socialLinks[j] == p.socialLinks[j])
      && r == p.(socialLinks := r.socialLinks)
  {
  }

  /** Editing a field of an education entry changes that field of that entry only. */
  lemma EducationEditSpec(p: Profile, index: nat, f: EducationField, v: string)
    requires index < |p.education|
    ensures var r := EducationEdited(p, index, f, v);
      && |r.education| == |p.education|
      && EducationFieldOf(r.education[index], f) == v
      && (forall g :: g != f ==> EducationFieldOf(r.education[index], g) == EducationFieldOf(p.education[index], g))
      && (forall j :: 0 <= j < |p.education| && j != index ==> r.education[j] == p.education[j])
      && r == p.(education := r.education)
  {
  }

  /** Editing a field of an experience entry changes that field of that entry only. */
  lemma ExperienceEditSpec(p: Profile, index: nat, f: ExperienceField, v: string)
    requires index < |p.experience|
    ensures var r := ExperienceEdited(p, index, f, v);
      && |r.experience| == |p.experience|
      && ExperienceFieldOf(r.experience[index], f) == v
      && (forall g :: g != f ==> ExperienceFieldOf(r.experience[index], g) == ExperienceFieldOf(p.experience[index], g))
      && (forall j :: 0 <= j < |p.experience| && j != index ==> r.experience[j] == p.experience[j])
      && r == p.(experience := r.experience)
  {
  }

  const EmptyEducation := Education("", "", "", "")
  const EmptyExperience := Experience("", "", "", "")

  // ---------------------------------------------------------------------------
  // Array.prototype.splice(start, 1)

  /** The index `splice(start, 1)` removes from: a negative start counts from the end
      (and stops at 0); a start at or past the end removes nothing. */
  function SpliceIndex(length: nat, start: int): (k: nat)
    ensures start >= 0 ==> k == start
    ensures start < 0 && length + start >= 0 ==> k == length + start
    ensures length + start < 0 ==> k == 0
    ensures start < 0 ==> k < length || length == 0
  {
    if start >= 0 then start
    else if length + start > 0 then length + start
    else 0
  }

  /** The array after `splice(start, 1)`. */
  function Spliced<T>(l: seq<T>, start: int): seq<T> {
    var k := SpliceIndex(|l|, start);
    if k < |l| then l[..k] + l[k + 1..] else l
  }

  /** `splice(start, 1)` with an index in range deletes exactly that entry, shifting the
      later ones down by one; with a start past the end it changes nothing. A negative
      start down to `-length` deletes the entry that many places from the end, and one
      below that deletes the first entry. */
  lemma SplicedSpec<T>(l: seq<T>, start: int)
    ensures 0 <= start < |l| ==>
      var r := Spliced(l, start);
      && |r| == |l| - 1
      && (forall j :: 0 <= j < start ==> r[j] == l[j])
      && (forall j :: start <= j < |r| ==> r[j] == l[j + 1])
    ensures start >= |l| ==> Spliced(l, start) == l
    ensures start < 0 && |l| > 0 ==> |Spliced(l, start)| == |l| - 1
    ensures start < 0 && |l| + start >= 0 ==> Spliced(l, start) == Spliced(l, |l| + start)
    ensures |l| + start < 0 ==> Spliced(l, start) == if l == [] then [] else l[1..]
  {
  }

  /** Appending an entry and then splicing out the last index gives the list back. */
  lemma SpliceAfterAppend<T>(l: seq<T>, x: T)
    ensures Spliced(l + [x], |l|) == l
    ensures Spliced(l + [x], -1) == l
  {
    assert (l + [x])[..|l|] == l;
  }

  /** `copy.splice(start, 1)` on a copy of the list, shifting the later entries down one
      place in the array. */
  method SpliceOut<T>(l: seq<T>, start: int) returns (r: seq<T>)
    ensures r == Spliced(l, start)
  {
    var k := SpliceIndex(|l|, start);
    if k >= |l| {
      return l;
    }
    var a := new T[|l|](i requires 0 <= i < |l| => l[i]);
    var j := k;
    while j < a.Length - 1
      invariant k <= j <= a.Length - 1
      invariant forall m :: 0 <= m < k ==> a[m] == l[m]
      invariant forall m :: k <= m < j ==> a[m] == l[m + 1]
      invariant forall m :: j <= m < a.Length ==> a[m] == l[m]
    {
      a[j] := a[j + 1];
      j := j + 1;
    }
    r := a[..a.Length - 1];
  }

  // ---------------------------------------------------------------------------
  // The page's state

  class ProfileEditor {
    /** The shared profile of the profile context. */
    var profile: Profile
    /** The `localProfile` state the form edits. */
    var local: Profile

    /** The local copy starts as the shared profile. */
    constructor (shared: Profile)
      ensures profile == shared && local == shared
    {
      profile := shared;
      local := shared;
    }

    /** `handleChange` for the input named `f`. */
    method HandleChange(f: TextField, v: string)
      modifies this
      ensures local == WithText(old(local), f, v) && profile == old(profile)
    {
      local := WithText(local, f, v);
    }

    /** `handleSocialChange(index, field, value)`; the form calls it for a rendered link. */
    method HandleSocialChange(index: nat, f: SocialField, v: string)
      requires index < |local.socialLinks|
      modifies this
      ensures local == SocialEdited(old(local), index, f, v) && profile == old(profile)
    {
      var links := local.socialLinks;
      links := links[index := WithSocialField(links[index], f, v)];
      local := local.(socialLinks := links);
    }

    /** `handleEducationChange(index, field, value)`. */
    method HandleEducationChange(index: nat, f: EducationField, v: string)
      requires index < |local.education|
      modifies this
      ensures local == EducationEdited(old(local), index, f, v) && profile == old(profile)
    {
      var entries := local.education;
      entries := entries[index := WithEducationField(entries[index], f, v)];
      local := local.(education := entries);
    }

    /** `handleExperienceChange(index, field, value)`. */
    method HandleExperienceChange(index: nat, f: ExperienceField, v: string)
      requires index < |local.experience|
      modifies this
      ensures local == ExperienceEdited(old(local), index, f, v) && profile == old(profile)
    {
      var entries := local.experience;
      entries := entries[index := WithExperienceField(entries[index], f, v)];
      local := local.(experience := entries);
    }

    /** `handleAddEducation`: one more entry, all four fields empty, at the end. */
    method HandleAddEducation()
      modifies this
      ensures local == old(local).(education := old(local).education + [EmptyEducation])
      ensures profile == old(profile)
    {
      local := local.(education := local.education + [EmptyEducation]);
    }

    /** `handleRemoveEducation(index)`. */
    method HandleRemoveEducation(index: int)
      modifies this
      ensures local == old(local).(education := Spliced(old(local).education, index))
      ensures profile == old(profile)
    {
      var entries := SpliceOut(local.education, index);
      local := local.(education := entries);
    }

    /** `handleAddExperience`: one more entry, all four fields empty, at the end. */
    method HandleAddExperience()
      modifies this
      ensures local == old(local).(experience := old(local).experience + [EmptyExperience])
      ensures profile == old(profile)
    {
      local := local.(experience := local.experience + [EmptyExperience]);
    }

    /** `handleRemoveExperience(index)`. */
    method HandleRemoveExperience(index: int)
      modifies this
      ensures local == old(local).(experience := Spliced(old(local).experience, index))
      ensures profile == old(profile)
    {
      var entries := SpliceOut(local.experience, index);
      local := local.(experience := entries);
    }

    /** `handleSubmit`: the whole local profile becomes the shared profile. */
    method HandleSubmit()
      modifies this
      ensures profile == old(local) && local == old(local)
    {
      profile := local;
    }
  }

  /** Adding an education entry and then removing the last one restores the local
      profile exactly, and leaves the shared profile alone throughout. */
  method AddThenRemoveEducation(editor: ProfileEditor)
    modifies editor
    ensures editor.local == old(editor.local) && editor.profile == old(editor.profile)
  {
    var n := |editor.local.education|;
    editor.HandleAddEducation();
    editor.HandleRemoveEducation(n);
    SpliceAfterAppend(old(editor.local).education, EmptyEducation);
  }
}
