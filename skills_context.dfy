/**
 * The skills store (`SkillsProvider`): a JavaScript object from category name to the
 * ordered list of that category's skills, its add/update/delete operations, its
 * lookups, and the effects that load it from and save it to `localStorage` with a
 * 24-hour expiry.
 */
module SkillsContext {
  import opened Wrappers
  import opened JsText
  import opened JsObject

  datatype Skill = Skill(id: string, name: string, level: int,
                         description: Option<string>, yearsExperience: Option<int>)

  /** A `Partial<Skill>`: `Some` for each property the patch carries. */
  datatype SkillPatch = SkillPatch(id: Option<string>, name: Option<string>, level: Option<int>,
                                   description: Option<string>, yearsExperience: Option<int>)

  /** `SkillsData`: category name to skills, in key-iteration order. */
  type Store = Entries<seq<Skill>>

  const StorageKey := "portfolioSkills"
  const TimestampKey := "portfolioSkillsTimestamp"
  const OneDayMs := 24 * 60 * 60 * 1000
  const DefaultSkillIcon := "/Icons/React.png"

  // ---------------------------------------------------------------------------
  // Skill lists

  /** Some skill of the list has this id. */
  predicate HasId(l: seq<Skill>, id: string) {
    exists k :: 0 <= k < |l| && l[k].id == id
  }

  /** `l.findIndex((s) => s.id === id)`. */
  function FindIndex(l: seq<Skill>, id: string): (r: int)
    ensures -1 <= r < |l|
    ensures r == -1 <==> !HasId(l, id)
    ensures r >= 0 ==> l[r].id == id && forall j :: 0 <= j < r ==> l[j].id != id
  {
    if l == [] then -1
    else if l[0].id == id then 0
    else
      var r := FindIndex(l[1..], id);
      assert forall j :: 1 <= j < |l| ==> l[j] == l[1..][j - 1];
      if r == -1 then -1 else r + 1
  }

  /** `l.find((s) => s.id === id)`. */
  function FindById(l: seq<Skill>, id: string): Option<Skill> {
    var k := FindIndex(l, id);
    if k == -1 then None else Some(l[k])
  }

  /** How many skills of the list carry this id. */
  function CountId(l: seq<Skill>, id: string): nat {
    if l == [] then 0 else (if l[0].id == id then 1 else 0) + CountId(l[1..], id)
  }

  /** `l.filter((s) => s.id !== id)`: every skill with another id, in order, and only those. */
  function WithoutId(l: seq<Skill>, id: string): (r: seq<Skill>)
    ensures forall x :: x in r <==> x in l && x.id != id
    ensures |r| == |l| - CountId(l, id)
    ensures !HasId(l, id) ==> r == l
  {
    if l == [] then []
    else if l[0].id == id then WithoutId(l[1..], id)
    else
      assert HasId(l[1..], id) ==> HasId(l, id) by {
        if HasId(l[1..], id) {
          var k :| 0 <= k < |l[1..]| && l[1..][k].id == id;
          assert l[k + 1].id == id;
        }
      }
      [l[0]] + WithoutId(l[1..], id)
  }

  /** `{ ...skill, ...patch }`. */
  function Merge(skill: Skill, patch: SkillPatch): Skill {
    Skill(patch.id.GetOr(skill.id), patch.name.GetOr(skill.name), patch.level.GetOr(skill.level),
          if patch.description.Some? then patch.description else skill.description,
          if patch.yearsExperience.Some? then patch.yearsExperience else skill.yearsExperience)
  }

  // ---------------------------------------------------------------------------
  // The store as a value

  /** `skills[category] || []`, which is `getSkillsByCategory`. */
  function SkillsOf(s: Store, category: string): (r: seq<Skill>)
    ensures category !in Keys(s) ==> r == []
    ensures category in Keys(s) ==> Lookup(s, category) == Some(r)
  {
    Lookup(s, category).GetOr([])
  }

  /** The number of skills over all categories. */
  function Total(s: Store): nat {
    if s == [] then 0 else |s[0].1| + Total(s[1..])
  }

  /** Replacing one category's list changes the total by the difference in length. */
  lemma {:induction false} TotalAfterPut(s: Store, c: string, l: seq<Skill>)
    requires DistinctKeys(s)
    ensures Total(Put(s, c, l)) == Total(s) - |SkillsOf(s, c)| + |l|
  {
    if s != [] && s[0].0 != c {
      assert DistinctKeys(s[1..]);
      TotalAfterPut(s[1..], c, l);
      assert SkillsOf(s, c) == SkillsOf(s[1..], c);
    }
  }

  /** The position of the first category, in key order, holding a skill with this id:
      the category the `for...in` scans of `updateSkill`, `deleteSkill` and
      `getSkillById` stop at. */
  function FirstHolder(s: Store, id: string): (r: Option<nat>)
    ensures r.None? <==> forall i :: 0 <= i < |s| ==> !HasId(s[i].1, id)
    ensures r.Some? ==> r.value < |s| && HasId(s[r.value].1, id)
                        && forall i :: 0 <= i < r.value ==> !HasId(s[i].1, id)
  {
    if s == [] then None
    else if HasId(s[0].1, id) then Some(0)
    else
      var r := FirstHolder(s[1..], id);
      assert forall i :: 1 <= i < |s| ==> s[i] == s[1..][i - 1];
      if r.None? then None else Some(r.value + 1)
  }

  // ---------------------------------------------------------------------------
  // The store operations, as functions from the old store to the new one

  /** The skill `addSkill` files: an empty id is replaced by a generated one. */
  function WithId(skill: Skill, freshId: string): Skill {
    if skill.id != "" then skill else skill.(id := freshId)
  }

  /** The store after `addSkill(skill, category)`. */
  function SkillAdded(s: Store, skill: Skill, category: string, freshId: string): Store {
    var created := if Lookup(s, category).None? then Put(s, category, []) else s;
    Put(created, category, SkillsOf(created, category) + [WithId(skill, freshId)])
  }

  /** `addSkill` appends the skill at the end of its category, creating the category
      last in key order when it is new, and leaves every other category alone. */
  lemma AddSkillAppends(s: Store, skill: Skill, category: string, freshId: string)
    ensures var r := SkillAdded(s, skill, category, freshId);
      && Keys(r) == (if category in Keys(s) then Keys(s) else Keys(s) + [category])
      && Lookup(r, category) == Some(SkillsOf(s, category) + [WithId(skill, freshId)])
      && forall c :: c != category ==> Lookup(r, c) == Lookup(s, c)
  {
    var created := if Lookup(s, category).None? then Put(s, category, []) else s;
    if Lookup(s, category).None? {
      PutSpec(s, category, []);
    }
    PutSpec(created, category, SkillsOf(created, category) + [WithId(skill, freshId)]);
  }

  /** `addSkill` adds exactly one skill to the store. */
  lemma AddSkillCount(s: Store, skill: Skill, category: string, freshId: string)
    requires DistinctKeys(s)
    ensures Total(SkillAdded(s, skill, category, freshId)) == Total(s) + 1
  {
    var created := if Lookup(s, category).None? then Put(s, category, []) else s;
    if Lookup(s, category).None? {
      TotalAfterPut(s, category, []);
      PutDistinct(s, category, []);
    }
    TotalAfterPut(created, category, SkillsOf(created, category) + [WithId(skill, freshId)]);
  }

  /** `newCategory || foundCategory`: an absent or empty new category keeps the old one. */
  function TargetCategory(newCategory: Option<string>, found: string): string {
    if newCategory.Some? && newCategory.value != "" then newCategory.value else found
  }

  /** The store after `updateSkill(id, patch, newCategory)`. */
  function SkillUpdated(s: Store, id: string, patch: SkillPatch, newCategory: Option<string>): Store {
    match FirstHolder(s, id)
    case None => s
    case Some(i) =>
      var found := s[i].0;
      var skill := s[i].1[FindIndex(s[i].1, id)];
      var target := TargetCategory(newCategory, found);
      var removed := Put(s, found, WithoutId(s[i].1, id));
      var prepared := if Lookup(removed, target).None? then Put(removed, target, []) else removed;
      Put(prepared, target, SkillsOf(prepared, target) + [Merge(skill, patch)])
  }

  /** `updateSkill` with an id no category holds changes nothing. Otherwise it takes the
      skill out of the first category holding it (with every skill sharing its id) and
      appends the patched skill to the target category, which is created last in key
      order when new; when the target is the same category the skill moves to its end.
      No other category changes. */
  lemma UpdateSkillMoves(s: Store, id: string, patch: SkillPatch, newCategory: Option<string>)
    requires DistinctKeys(s)
    ensures FirstHolder(s, id).None? ==> SkillUpdated(s, id, patch, newCategory) == s
    ensures FirstHolder(s, id).Some? ==>
      var r := SkillUpdated(s, id, patch, newCategory);
      var i := FirstHolder(s, id).value;
      var found := s[i].0;
      var target := TargetCategory(newCategory, found);
      var moved := Merge(FindById(s[i].1, id).value, patch);
      && Keys(r) == (if target in Keys(s) then Keys(s) else Keys(s) + [target])
      && Lookup(r, target) == Some((if target == found then WithoutId(s[i].1, id) else SkillsOf(s, target)) + [moved])
      && (target != found ==> Lookup(r, found) == Some(WithoutId(s[i].1, id)))
      && forall c :: c != found && c != target ==> Lookup(r, c) == Lookup(s, c)
  {
    if FirstHolder(s, id).Some? {
      var i := FirstHolder(s, id).value;
      assert Keys(s)[i] == s[i].0;
      LookupAt(s, i);
      var found := s[i].0;
      var target := TargetCategory(newCategory, found);
      var removed := Put(s, found, WithoutId(s[i].1, id));
      PutSpec(s, found, WithoutId(s[i].1, id));
      var prepared := if Lookup(removed, target).None? then Put(removed, target, []) else removed;
      if Lookup(removed, target).None? {
        PutSpec(removed, target, []);
      }
      var skill := s[i].1[FindIndex(s[i].1, id)];
      PutSpec(prepared, target, SkillsOf(prepared, target) + [Merge(skill, patch)]);
    }
  }

  /** With ids unique in its category, `updateSkill` neither loses nor duplicates a skill. */
  lemma UpdateSkillCount(s: Store, id: string, patch: SkillPatch, newCategory: Option<string>)
    requires DistinctKeys(s)
    requires FirstHolder(s, id).Some? && CountId(s[FirstHolder(s, id).value].1, id) == 1
    ensures Total(SkillUpdated(s, id, patch, newCategory)) == Total(s)
  {
    var i := FirstHolder(s, id).value;
    var found := s[i].0;
    var target := TargetCategory(newCategory, found);
    var removed := Put(s, found, WithoutId(s[i].1, id));
    LookupAt(s, i);
    TotalAfterPut(s, found, WithoutId(s[i].1, id));
    PutDistinct(s, found, WithoutId(s[i].1, id));
    var prepared := if Lookup(removed, target).None? then Put(removed, target, []) else removed;
    if Lookup(removed, target).None? {
      TotalAfterPut(removed, target, []);
      PutDistinct(removed, target, []);
    }
    var skill := s[i].1[FindIndex(s[i].1, id)];
    TotalAfterPut(prepared, target, SkillsOf(prepared, target) + [Merge(skill, patch)]);
  }

  /** `SkillUpdated` unrolled into the assignments `updateSkill` makes one after the other. */
  lemma UpdateSkillSteps(s: Store, id: string, patch: SkillPatch, newCategory: Option<string>)
    requires DistinctKeys(s) && FirstHolder(s, id).Some?
    ensures var i := FirstHolder(s, id).value;
      var found := s[i].0;
      var target := TargetCategory(newCategory, found);
      var removed := Put(s, found, WithoutId(SkillsOf(s, found), id));
      var prepared := if Lookup(removed, target).None? then Put(removed, target, []) else removed;
      SkillUpdated(s, id, patch, newCategory)
        == Put(prepared, target, SkillsOf(prepared, target) + [Merge(FindById(s[i].1, id).value, patch)])
  {
    LookupAt(s, FirstHolder(s, id).value);
  }

  /** `updateSkill` keeps the keys of the store distinct. */
  lemma UpdatedKeepsDistinct(s: Store, id: string, patch: SkillPatch, newCategory: Option<string>)
    requires DistinctKeys(s)
    ensures DistinctKeys(SkillUpdated(s, id, patch, newCategory))
  {
    if FirstHolder(s, id).Some? {
      var i := FirstHolder(s, id).value;
      var found := s[i].0;
      var target := TargetCategory(newCategory, found);
      var removed := Put(s, found, WithoutId(s[i].1, id));
      PutDistinct(s, found, WithoutId(s[i].1, id));
      var prepared := if Lookup(removed, target).None? then Put(removed, target, []) else removed;
      if Lookup(removed, target).None? {
        PutDistinct(removed, target, []);
      }
      var skill := s[i].1[FindIndex(s[i].1, id)];
      PutDistinct(prepared, target, SkillsOf(prepared, target) + [Merge(skill, patch)]);
    }
  }

  /** The store after `deleteSkill(id)`. */
  function SkillDeleted(s: Store, id: string): Store {
    match FirstHolder(s, id)
    case None => s
    case Some(i) => Put(s, s[i].0, WithoutId(s[i].1, id))
  }

  /** `deleteSkill` removes the id only from the first category holding it; the keys,
      and every other category (even one that also holds the id), are unchanged, and an
      id held nowhere changes nothing. */
  lemma DeleteSkillSpec(s: Store, id: string)
    requires DistinctKeys(s)
    ensures var r := SkillDeleted(s, id);
      && Keys(r) == Keys(s)
      && (FirstHolder(s, id).None? ==> r == s)
      && (FirstHolder(s, id).Some? ==>
            var i := FirstHolder(s, id).value;
            && Lookup(r, s[i].0) == Some(WithoutId(s[i].1, id))
            && (forall c :: c != s[i].0 ==> Lookup(r, c) == Lookup(s, c))
            && Total(r) == Total(s) - CountId(s[i].1, id))
  {
    if FirstHolder(s, id).Some? {
      var i := FirstHolder(s, id).value;
      assert Keys(s)[i] == s[i].0;
      LookupAt(s, i);
      PutSpec(s, s[i].0, WithoutId(s[i].1, id));
      TotalAfterPut(s, s[i].0, WithoutId(s[i].1, id));
    }
  }

  /** The store after `addCategory(category)`. */
  function CategoryAdded(s: Store, category: string): Store {
    if Lookup(s, category).None? then Put(s, category, []) else s
  }

  /** `addCategory` never overwrites a category's list, adds a new one empty and last,
      changes nothing else, and doing it twice is doing it once. */
  lemma AddCategorySpec(s: Store, category: string)
    ensures var r := CategoryAdded(s, category);
      && Lookup(r, category) == Some(SkillsOf(s, category))
      && Keys(r) == (if category in Keys(s) then Keys(s) else Keys(s) + [category])
      && (forall c :: c != category ==> Lookup(r, c) == Lookup(s, c))
      && CategoryAdded(r, category) == r
  {
    if Lookup(s, category).None? {
      PutSpec(s, category, []);
    }
  }

  /** The store after `deleteCategory(category)`: the statement `delete skills[category]`. */
  function CategoryDeleted(s: Store, category: string): Store {
    Remove(s, category)
  }

  /** `deleteCategory` removes exactly that key with its skills, keeps the other keys in
      order with their lists, and changes nothing for an unknown category. */
  lemma DeleteCategorySpec(s: Store, category: string)
    ensures var r := CategoryDeleted(s, category);
      && Keys(r) == Without(Keys(s), category)
      && Lookup(r, category) == None
      && (forall c :: c != category ==> Lookup(r, c) == Lookup(s, c))
      && (category !in Keys(s) ==> r == s)
  {
    RemoveSpec(s, category);
    if category !in Keys(s) {
      RemoveAbsent(s, category);
    }
  }

  // ---------------------------------------------------------------------------
  // Lookups

  /** The skills of a list with `lo <= level <= hi`, in list order. */
  function LevelFiltered(l: seq<Skill>, lo: int, hi: int): seq<Skill> {
    if l == [] then []
    else
      var last := l[|l| - 1];
      LevelFiltered(l[..|l| - 1], lo, hi) + (if lo <= last.level <= hi then [last] else [])
  }

  /** What `getSkillsByLevel(lo, hi)` collects: category by category in key order, and
      within a category in list order, the skills with `lo <= level <= hi`. */
  function SkillsInRange(s: Store, lo: int, hi: int): seq<Skill> {
    if s == [] then [] else SkillsInRange(s[..|s| - 1], lo, hi) + LevelFiltered(s[|s| - 1].1, lo, hi)
  }

  /** A list filtered by level keeps exactly its skills within the bounds. */
  lemma {:induction false} LevelFilteredMembers(l: seq<Skill>, lo: int, hi: int)
    ensures forall x :: x in LevelFiltered(l, lo, hi) <==> x in l && lo <= x.level <= hi
  {
    if l != [] {
      LevelFilteredMembers(l[..|l| - 1], lo, hi);
      assert l == l[..|l| - 1] + [l[|l| - 1]];
    }
  }

  /** `getSkillsByLevel` returns exactly the skills, of any category, whose level lies
      within the bounds, both inclusive. */
  lemma {:induction false} SkillsInRangeMembers(s: Store, lo: int, hi: int)
    ensures forall x :: x in SkillsInRange(s, lo, hi) <==>
                         lo <= x.level <= hi && exists i :: 0 <= i < |s| && x in s[i].1
  {
    if s != [] {
      var init := s[..|s| - 1];
      SkillsInRangeMembers(init, lo, hi);
      LevelFilteredMembers(s[|s| - 1].1, lo, hi);
      assert forall i :: 0 <= i < |init| ==> init[i] == s[i];
      forall x: Skill | lo <= x.level <= hi && (exists i :: 0 <= i < |s| && x in s[i].1)
        ensures x in SkillsInRange(s, lo, hi)
      {
        var i :| 0 <= i < |s| && x in s[i].1;
        if i < |init| {
          assert x in init[i].1;
        }
      }
    }
  }

  /** `getSkillIcon(name)`: the icon the table gives, and `/Icons/React.png` for a name
      it does not list (no entry of the table is empty, so the `||` fallback is taken
      only for absent names). */
  function SkillIcon(name: string): (icon: string)
    ensures name in SkillIcons ==> icon == SkillIcons[name]
    ensures name !in SkillIcons ==> icon == DefaultSkillIcon
    ensures icon != ""
  {
    if name in SkillIcons && SkillIcons[name] != "" then SkillIcons[name] else DefaultSkillIcon
  }

  // ---------------------------------------------------------------------------
  // Persistence

  /** `localStorage.getItem(key)` is truthy: the key is there and its text is not empty. */
  predicate Stored(storage: map<string, string>, key: string) {
    key in storage && storage[key] != ""
  }

  /** `currentTime - timestamp > oneDayInMs`; with a NaN timestamp (`None`) the comparison
      is false, so such data never counts as expired. */
  predicate Expired(timestamp: Option<int>, now: int) {
    timestamp.Some? && now - timestamp.value > OneDayMs
  }

  datatype Persisted = Persisted(skills: Store, storage: map<string, string>)

  /** The store and `localStorage` after the load effect. `parse` stands for `JSON.parse`
      of the stored text, `None` when it throws. */
  function AfterLoad(skills: Store, storage: map<string, string>, now: int,
                     parse: string -> Option<Store>): Persisted
  {
    if Stored(storage, StorageKey) && Stored(storage, TimestampKey) then
      if Expired(ParseInt(storage[TimestampKey]), now) then
        Persisted(skills, storage - {StorageKey, TimestampKey})
      else
        match parse(storage[StorageKey])
        case Some(data) => Persisted(data, storage)
        case None => Persisted(skills, storage - {StorageKey, TimestampKey})
    else
      Persisted(skills, storage)
  }

  /** `localStorage` after the save effect at time `now`; `stringify` stands for
      `JSON.stringify`. */
  function AfterSave(storage: map<string, string>, skills: Store, now: nat,
                     stringify: Store -> string): map<string, string>
  {
    storage[StorageKey := stringify(skills)][TimestampKey := NatToString(now)]
  }

  /** The load policy: stored data is adopted, with the storage kept, exactly when both
      keys hold text, the timestamp is not more than a day old and the data parses; stale
      or unparseable data has both keys removed and the current data kept; with either key
      missing nothing happens. */
  lemma LoadPolicy(skills: Store, storage: map<string, string>, now: int,
                   parse: string -> Option<Store>)
    ensures var r := AfterLoad(skills, storage, now, parse);
      && (r.skills != skills ==>
            Stored(storage, StorageKey) && Stored(storage, TimestampKey)
            && !Expired(ParseInt(storage[TimestampKey]), now)
            && parse(storage[StorageKey]) == Some(r.skills))
      && (Stored(storage, StorageKey) && Stored(storage, TimestampKey)
          && (Expired(ParseInt(storage[TimestampKey]), now) || parse(storage[StorageKey]).None?)
          ==> r == Persisted(skills, storage - {StorageKey, TimestampKey}))
      && (Stored(storage, StorageKey) && Stored(storage, TimestampKey)
          && !Expired(ParseInt(storage[TimestampKey]), now) && parse(storage[StorageKey]).Some?
          ==> r == Persisted(parse(storage[StorageKey]).value, storage))
      && (!(Stored(storage, StorageKey) && Stored(storage, TimestampKey)) ==> r == Persisted(skills, storage))
      && (r.storage == storage || r.storage == storage - {StorageKey, TimestampKey})
  {
  }

  /** Data saved at `saved` is read back by a load at most a day later, provided
      `JSON.parse` inverts `JSON.stringify` on it. */
  lemma SaveThenLoad(current: Store, storage: map<string, string>, data: Store,
                     saved: nat, now: int, parse: string -> Option<Store>, stringify: Store -> string)
    requires parse(stringify(data)) == Some(data) && stringify(data) != ""
    requires now - saved <= OneDayMs
    ensures var written := AfterSave(storage, data, saved, stringify);
      AfterLoad(current, written, now, parse) == Persisted(data, written)
  {
    ParseIntNatToString(saved);
  }

  /** A load more than a day after the save discards the saved data and both keys. */
  lemma SaveThenLoadExpired(current: Store, storage: map<string, string>, data: Store,
                            saved: nat, now: int, parse: string -> Option<Store>, stringify: Store -> string)
    requires stringify(data) != ""
    requires now - saved > OneDayMs
    ensures AfterLoad(current, AfterSave(storage, data, saved, stringify), now, parse)
            == Persisted(current, storage - {StorageKey, TimestampKey})
  {
    var written := AfterSave(storage, data, saved, stringify);
    ParseIntNatToString(saved);
    assert Expired(ParseInt(written[TimestampKey]), now);
    LoadPolicy(current, written, now, parse);
    assert written - {StorageKey, TimestampKey} == storage - {StorageKey, TimestampKey};
  }

  // ---------------------------------------------------------------------------
  // The provider's state and its operations

  class SkillsProvider {
    /** The `skills` state. */
    var skills: Store
    /** The `loading` state. */
    var loading: bool
    /** The browser's `localStorage`. */
    var storage: map<string, string>

    ghost predicate Valid()
      reads this
    {
      DistinctKeys(skills)
    }

    /** First render: the initial data, still loading. */
    constructor (storage: map<string, string>)
      ensures Valid() && skills == InitialSkills && loading && this.storage == storage
    {
      skills := InitialSkills;
      loading := true;
      this.storage := storage;
    }

    /** The load effect, run once after the first render; `now` is `Date.now()`. */
    method Load(now: nat, parse: string -> Option<Store>)
      requires Valid()
      requires forall t :: parse(t).Some? ==> DistinctKeys(parse(t).value)
      modifies this
      ensures Valid() && !loading
      ensures Persisted(skills, storage) == AfterLoad(old(skills), old(storage), now, parse)
    {
      if Stored(storage, StorageKey) && Stored(storage, TimestampKey) {
        var storedSkills := storage[StorageKey];
        var timestamp := ParseInt(storage[TimestampKey]);
        if timestamp.Some? && now - timestamp.value > OneDayMs {
          storage := storage - {StorageKey};
          storage := storage - {TimestampKey};
        } else {
          var parsed := parse(storedSkills);
          if parsed.Some? {
            skills := parsed.value;
          } else {
            storage := storage - {StorageKey};
            storage := storage - {TimestampKey};
          }
        }
      }
      loading := false;
    }

    /** The save effect, run after every change of `skills` or `loading`. */
    method Save(now: nat, stringify: Store -> string)
      modifies this
      ensures skills == old(skills) && loading == old(loading)
      ensures storage == if loading then old(storage) else AfterSave(old(storage), skills, now, stringify)
    {
      if !loading {
        storage := storage[StorageKey := stringify(skills)];
        storage := storage[TimestampKey := NatToString(now)];
      }
    }

    /** `addSkill(skill, category)`; `freshId` is the id `Math.random` would generate. */
    method AddSkill(skill: Skill, category: string, freshId: string)
      requires Valid()
      modifies this
      ensures Valid() && skills == SkillAdded(old(skills), skill, category, freshId)
      ensures loading == old(loading) && storage == old(storage)
    {
      if Lookup(skills, category).None? {
        PutDistinct(skills, category, []);
        skills := Put(skills, category, []);
      }
      var newSkill := WithId(skill, freshId);
      PutDistinct(skills, category, SkillsOf(skills, category) + [newSkill]);
      skills := Put(skills, category, SkillsOf(skills, category) + [newSkill]);
    }

    /** `updateSkill(id, patch, newCategory)`. */
    method UpdateSkill(id: string, patch: SkillPatch, newCategory: Option<string>)
      requires Valid()
      modifies this
      ensures Valid() && skills == SkillUpdated(old(skills), id, patch, newCategory)
      ensures loading == old(loading) && storage == old(storage)
    {
      var current := skills;
      var foundCategory := "";
      var foundSkill: Option<Skill> := None;
      var i := 0;
      while i < |current|
        invariant 0 <= i <= |current|
        invariant foundSkill.None?
        invariant forall j :: 0 <= j < i ==> !HasId(current[j].1, id)
      {
        var skill := FindById(current[i].1, id);
        if skill.Some? {
          foundSkill := skill;
          foundCategory := current[i].0;
          break;
        }
        i := i + 1;
      }
      if foundSkill.None? {
        return;
      }
      assert FirstHolder(current, id) == Some(i);
      var targetCategory := TargetCategory(newCategory, foundCategory);
      var updated := current;
      updated := Put(updated, foundCategory, WithoutId(SkillsOf(current, foundCategory), id));
      if Lookup(updated, targetCategory).None? {
        updated := Put(updated, targetCategory, []);
      }
      updated := Put(updated, targetCategory, SkillsOf(updated, targetCategory) + [Merge(foundSkill.value, patch)]);
      UpdateSkillSteps(current, id, patch, newCategory);
      UpdatedKeepsDistinct(current, id, patch, newCategory);
      skills := updated;
    }

    /** `deleteSkill(id)`. */
    method DeleteSkill(id: string)
      requires Valid()
      modifies this
      ensures Valid() && skills == SkillDeleted(old(skills), id)
      ensures loading == old(loading) && storage == old(storage)
    {
      var updated := skills;
      var i := 0;
      while i < |updated|
        invariant 0 <= i <= |updated|
        invariant updated == skills
        invariant forall j :: 0 <= j < i ==> !HasId(skills[j].1, id)
      {
        var index := FindIndex(updated[i].1, id);
        if index != -1 {
          assert FirstHolder(skills, id) == Some(i);
          PutDistinct(updated, updated[i].0, WithoutId(updated[i].1, id));
          updated := Put(updated, updated[i].0, WithoutId(updated[i].1, id));
          break;
        }
        i := i + 1;
      }
      skills := updated;
    }

    /** `addCategory(category)`. */
    method AddCategory(category: string)
      requires Valid()
      modifies this
      ensures Valid() && skills == CategoryAdded(old(skills), category)
      ensures loading == old(loading) && storage == old(storage)
    {
      if Lookup(skills, category).None? {
        PutDistinct(skills, category, []);
        skills := Put(skills, category, []);
      }
    }

    /** `deleteCategory(category)`. */
    method DeleteCategory(category: string)
      requires Valid()
      modifies this
      ensures Valid() && skills == CategoryDeleted(old(skills), category)
      ensures loading == old(loading) && storage == old(storage)
    {
      RemoveSpec(skills, category);
      skills := Remove(skills, category);
    }

    /** `getSkillById(id)`: the first skill with that id in the first category holding one,
        with that category; `None` (null) exactly when no category holds the id. */
    method GetSkillById(id: string) returns (r: Option<(Skill, string)>)
      ensures r.None? <==> forall i :: 0 <= i < |skills| ==> !HasId(skills[i].1, id)
      ensures r.Some? ==> exists i :: 0 <= i < |skills| && skills[i].0 == r.value.1
                            && FindById(skills[i].1, id) == Some(r.value.0)
                            && forall j :: 0 <= j < i ==> !HasId(skills[j].1, id)
    {
      var i := 0;
      while i < |skills|
        invariant 0 <= i <= |skills|
        invariant forall j :: 0 <= j < i ==> !HasId(skills[j].1, id)
      {
        var skill := FindById(skills[i].1, id);
        if skill.Some? {
          return Some((skill.value, skills[i].0));
        }
        i := i + 1;
      }
      return None;
    }

    /** `getSkillsByLevel(minLevel, maxLevel)`, the bounds defaulting to 0 and 100. */
    method GetSkillsByLevel(minLevel: Option<int>, maxLevel: Option<int>) returns (result: seq<Skill>)
      ensures result == SkillsInRange(skills, minLevel.GetOr(0), maxLevel.GetOr(100))
    {
      var lo, hi := minLevel.GetOr(0), maxLevel.GetOr(100);
      result := [];
      var i := 0;
      while i < |skills|
        invariant 0 <= i <= |skills|
        invariant result == SkillsInRange(skills[..i], lo, hi)
      {
        var categorySkills := skills[i].1;
        ghost var before := result;
        var j := 0;
        while j < |categorySkills|
          invariant 0 <= j <= |categorySkills|
          invariant result == before + LevelFiltered(categorySkills[..j], lo, hi)
        {
          var skill := categorySkills[j];
          assert categorySkills[..j + 1][..j] == categorySkills[..j];
          if skill.level >= lo && skill.level <= hi {
            result := result + [skill];
          }
          j := j + 1;
        }
        assert categorySkills[..j] == categorySkills;
        assert skills[..i + 1][..i] == skills[..i];
        i := i + 1;
      }
      assert skills[..i] == skills;
    }
  }

  // ---------------------------------------------------------------------------
  // Data

  /** The data the store starts from (`initialSkillsData`). */
  const InitialSkills: Store := [
    ("Frontend Development", [
      Skill("1", "HTML5", 95, Some("Semantic markup, accessibility, and modern features"), Some(7)),
      Skill("2", "CSS3", 92, Some("Advanced layouts, animations, and responsive design"), Some(7)),
      Skill("3", "JavaScript", 90, Some("ES6+, DOM manipulation, and asynchronous programming"), Some(6)),
      Skill("4", "React", 85, Some("Component architecture, hooks, and state management"), Some(5)),
      Skill("5", "Next.js", 80, Some("Server-side rendering, static generation, and API routes"), Some(3)),
      Skill("6", "TypeScript", 75, Some("Type safety, interfaces, and advanced typing"), Some(3)),
      Skill("7", "Tailwind CSS", 90, Some("Utility-first CSS framework for rapid UI development"), Some(3)),
      Skill("8", "Framer Motion", 70, Some("Animation library for React with gesture support"), Some(2)),
      Skill("9", "Three.js", 60, Some("3D graphics in the browser using WebGL"), Some(1)),
      Skill("22", "Redux", 75, Some("State management library for JavaScript applications"), Some(3)),
      Skill("23", "API Integration", 70, Some("Working with RESTful APIs"), Some(2)),
      Skill("33", "Bootstrap", 80, Some("Popular CSS framework for responsive design"), Some(4)),
      Skill("34", "Chakra UI", 75, Some("Accessible and customizable React component library"), Some(2)),
      Skill("35", "MUI (Material-UI)", 80, Some("React components that implement Google's Material Design"), Some(3)),
      Skill("36", "Sass", 85, Some("CSS preprocessor for better styles organization"), Some(4)),
      Skill("37", "Ant Design", 70, Some("Enterprise-level UI design language and React components"), Some(2)),
      Skill("40", "Vercel", 80, Some("Platform for frontend frameworks and static sites, built to integrate with headless content, commerce, or database."), Some(2)),
      Skill("41", "Vite", 75, Some("Next generation frontend tooling. It's fast! Very fast!"), Some(2))
    ]),
    ("WordPress Development", [
      Skill("10", "WordPress", 95, None, None),
      Skill("11", "PHP", 85, None, None),
      Skill("12", "WooCommerce", 85, None, None),
      Skill("13", "Custom Themes Development", 90, None, None),
      Skill("14", "Elementor", 80, None, None),
      Skill("27", "Gutenberg Blocks", 75, None, None),
      Skill("28", "WordPress Security", 80, None, None),
      Skill("29", "WordPress Performance Optimization", 70, None, None),
      Skill("30", "WordPress REST API", 65, None, None),
      Skill("31", "Plugin Development", 85, None, None),
      Skill("32", "WordPress SEO", 80, None, None)
    ]),
    ("Other Skills", [
      Skill("15", "Figma", 88, None, None),
      Skill("16", "UI Design", 85, None, None),
      Skill("17", "UX Design", 80, None, None),
      Skill("18", "Adobe XD", 75, None, None),
      Skill("20", "Photoshop", 85, None, None),
      Skill("24", "Performance Optimization", 75, None, None),
      Skill("25", "SEO Fundamentals", 85, None, None),
      Skill("21", "Figma/Design Tools", 70, None, None),
      Skill("26", "API Integration", 80, None, None)
    ])
  ]

  /** The directory every icon of `availableSkillIcons` lies in. */
  const IconDir := "/Icons/"

  /** The file name of each skill's icon within `IconDir`. */
  const IconFiles: map<string, string> := map[
    "HTML5" := "HTML.png",
    "CSS3" := "CSS.png",
    "JavaScript" := "JavaScript.png",
    "TypeScript" := "TypeScript.png",
    "React" := "React.png",
    "Next.js" := "Nextjs.png",
    "Tailwind CSS" := "Tailwind.png",
    "Framer Motion" := "React.png",
    "Three.js" := "React.png",
    "Redux" := "ReactRedux.png",
    "API Integration" := "React.png",
    "Bootstrap" := "Bootstrap.png",
    "Chakra UI" := "ChakraUI.png",
    "MUI (Material-UI)" := "MUI.png",
    "Sass" := "Sass.png",
    "Ant Design" := "AntDesign.png",
    "Vercel" := "Vercel.png",
    "Vite" := "Vite.png",
    "WordPress" := "Wordpress.png",
    "PHP" := "php.png",
    "WooCommerce" := "woocommerce.png",
    "Custom Themes Development" := "Wordpress.png",
    "Elementor" := "Elementor.png",
    "Gutenberg Blocks" := "Wordpress.png",
    "WordPress Security" := "Wordpress.png",
    "WordPress Performance Optimization" := "Wordpress.png",
    "WordPress REST API" := "api.png",
    "Plugin Development" := "Wordpress.png",
    "WordPress SEO" := "Wordpress.png",
    "Figma" := "Figma.png",
    "UI Design" := "Figma.png",
    "UX Design" := "Figma.png",
    "Adobe XD" := "XD.png",
    "Photoshop" := "Photoshop.png",
    "Performance Optimization" := "React.png",
    "SEO Fundamentals" := "React.png",
    "Figma/Design Tools" := "Figma.png",
    "npm" := "npm.png",
    "Flutter" := "Flutter.png",
    "Dart" := "Dart.png",
    "Behance" := "Behance.png",
    "Dribbble" := "Dribbble.png",
    "Medium" := "Medium.png"
  ]

  /** `availableSkillIcons`: skill name to icon path. */
  const SkillIcons: map<string, string> := map name | name in IconFiles :: IconDir + IconFiles[name]
}
