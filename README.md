# Portfolio site: skills store, admin editors, route guard and skills universe

This project models the data logic of a Next.js portfolio site with an admin area, and
proves properties of it in Dafny.

At the centre is the skills store (`SkillsProvider`). It is a JavaScript object from category name to an
ordered list of skills. It supports these operations:

- add, update (which can move a skill to another category) and delete a skill;
- add and delete a category;
- look up a skill by id, by category or by level range, and look up a skill's icon;
- load itself from `localStorage` on start, discarding data older than 24 hours, and
  save itself back after every change.

A JavaScript object is modelled as the sequence of its `(key, value)` entries in key
iteration order (`JsObject`). The first-match scans of `updateSkill`, `deleteSkill` and
`getSkillById`, and the "first remaining category" of the admin page, depend on that order.

Around the store sit the pieces of the admin area and the landing page that change state:

- the profile editor's local copy and its list edits (`ProfileAdmin`);
- the new-project form's technology list (`NewProjectAdmin`);
- the skills admin page's active tab and category actions (`SkillsAdmin`);
- the admin project list's delete and technology chips (`ProjectsAdmin`);
- the landing page's project filter (`ProjectsSection`);
- the session and route guard (`Auth`);
- the 3D skills view's selection and zoom state, and its linear orbit layout (`SolarSystem`);
- the new-skill form's schema and submit (`NewSkillForm`).

Components that hold state are classes. Their fields are the component's `useState` values, and
`localStorage` is a `map<string, string>` field. Each handler is a method whose
postcondition ties the new state to a function of the old one. The properties are lemmas
about those functions.

Things outside the program are parameters:

- `Date.now()`;
- `JSON.parse` and `JSON.stringify` (as functions, with `None` for a throw);
- the ids `Math.random` would generate;
- the answers of `window.confirm` and `window.prompt`;
- the sines and cosines of the planets' angles.

A timer that fires is a method of its own. A `router.push` appends to a `pushed` list.

Helper modules:

- `Wrappers` holds `Option`.
- `JsText` holds `String.prototype.trim`, `parseInt`, and `Number#toString` for
  naturals.
- `JsObject` holds the object model.
- `ProjectData` holds the `Project` record shared by both project lists.

## Model

| member | source | states |
|---|---|---|
| JsText.TrimSpec | src/app/admin/projects/new/page.tsx:15 | `trim()` returns the middle of the string with the whitespace (as the language standard defines it) removed from both ends, and leaves no whitespace at either end |
| JsText.TrimIdempotent | src/app/admin/projects/new/page.tsx:15-16 | trimming a trimmed string changes nothing |
| JsText.NatToString | src/lib/skills-context.tsx:319 | `Date.now().toString()` is a non-empty string of decimal digits with no leading zero |
| JsText.ParseIntNatToString | src/lib/skills-context.tsx:291 | `parseInt` reads back exactly the number a saved timestamp was written from |
| JsObject.Lookup | src/lib/skills-context.tsx:326 | `obj[key]` is undefined exactly when the key is not an own key |
| JsObject.PutSpec | src/lib/skills-context.tsx:336-339 | after `obj[k] = v` the key holds `v`; an existing key keeps its place in key order and a new key comes last; every other key keeps its value |
| JsObject.PutDistinct | src/lib/skills-context.tsx:336-339 | assignment keeps keys distinct |
| JsObject.RemoveSpec | src/lib/skills-context.tsx:418-421 | `delete obj[k]` removes that key only, keeps the other keys in order with their values, and keeps keys distinct |
| JsObject.RemoveKeys | src/lib/skills-context.tsx:418-421 | the keys after `delete obj[k]` are the old keys without `k`, in order |
| JsObject.RemoveLookup | src/lib/skills-context.tsx:418-421 | after `delete obj[k]`, reading `k` gives undefined and reading any other key gives what it gave before |
| JsObject.RemoveAbsent | src/lib/skills-context.tsx:420 | deleting a missing key changes nothing |
| SkillsContext.FindIndex | src/lib/skills-context.tsx:392-394 | `findIndex` returns the first index with that id, and -1 exactly when no skill has it |
| SkillsContext.WithoutId | src/lib/skills-context.tsx:367-369 | filtering by id keeps exactly the skills with another id, and shrinks the list by the number of skills with that id |
| SkillsContext.SkillsOf | src/lib/skills-context.tsx:451-453 | `getSkillsByCategory` returns the category's list, or `[]` for an unknown category |
| SkillsContext.FirstHolder | src/lib/skills-context.tsx:352-359 | the `for...in` scan stops at the first category, in key order, that holds the id, and finds none exactly when no category holds it |
| SkillsContext.AddSkillAppends | src/lib/skills-context.tsx:324-340 | `addSkill` appends the skill (with a generated id if it had none) at the end of its category, creating the category last in key order when absent; every other category is unchanged |
| SkillsContext.AddSkillCount | src/lib/skills-context.tsx:324-340 | `addSkill` adds exactly one skill to the store |
| SkillsContext.UpdateSkillMoves | src/lib/skills-context.tsx:343-385 | with an id no category holds, `updateSkill` changes nothing; otherwise it removes the id from the first category holding it and appends `{...old, ...patch}` to `newCategory`, or to the same category when `newCategory` is missing or empty; the target is created last when new; no other category changes |
| SkillsContext.UpdateSkillCount | src/lib/skills-context.tsx:363-384 | with the id unique in its category, `updateSkill` keeps the total number of skills |
| SkillsContext.UpdatedKeepsDistinct | src/lib/skills-context.tsx:366-384 | the updated store is still an object with distinct keys |
| SkillsContext.DeleteSkillSpec | src/lib/skills-context.tsx:388-405 | `deleteSkill` removes the id from the first category holding it only; keys and every other category are unchanged; the total drops by the number of removed skills; an absent id changes nothing |
| SkillsContext.AddCategorySpec | src/lib/skills-context.tsx:408-415 | `addCategory` never overwrites a list, adds a new category empty and last, changes nothing else, and is idempotent |
| SkillsContext.DeleteCategorySpec | src/lib/skills-context.tsx:418-422 | `deleteCategory` removes exactly that key and its skills and keeps the other keys in order with their lists; an unknown category changes nothing |
| SkillsContext.LevelFilteredMembers | src/lib/skills-context.tsx:440-444 | within one category, exactly the skills with min ≤ level ≤ max are collected |
| SkillsContext.SkillsInRangeMembers | src/lib/skills-context.tsx:436-448 | `getSkillsByLevel` returns exactly the skills of any category with min ≤ level ≤ max, both bounds inclusive |
| SkillsContext.SkillIcon | src/lib/skills-context.tsx:265-270 | `getSkillIcon` returns the table's icon for a listed name and `/Icons/React.png` otherwise, never an empty string |
| SkillsContext.LoadPolicy | src/lib/skills-context.tsx:285-314 | stored data replaces the store, with the storage kept, exactly when both keys hold text, the timestamp is at most a day old (or not a number) and the text parses; data that is stale or does not parse has both keys removed and the current store kept; with a key missing nothing happens |
| SkillsContext.SaveThenLoad | src/lib/skills-context.tsx:285-321 | data saved at time t is adopted by a load at most 24 hours later |
| SkillsContext.SaveThenLoadExpired | src/lib/skills-context.tsx:285-321 | a load more than 24 hours after the save discards the data and both keys |
| SkillsContext.SkillsProvider.constructor | src/lib/skills-context.tsx:282-283 | the store starts with the initial data and loading |
| SkillsContext.SkillsProvider.Load | src/lib/skills-context.tsx:285-314 | the load effect gives the store and storage that `AfterLoad` describes, and always ends loading |
| SkillsContext.SkillsProvider.Save | src/lib/skills-context.tsx:316-321 | the save effect writes both keys (the data and the current time) only when not loading, and changes nothing else |
| SkillsContext.SkillsProvider.AddSkill | src/lib/skills-context.tsx:324-340 | the new store is `SkillAdded` of the old one, with distinct keys |
| SkillsContext.SkillsProvider.UpdateSkill | src/lib/skills-context.tsx:343-385 | the `for...in` scan with `break` followed by the three assignments gives `SkillUpdated` of the old store |
| SkillsContext.SkillsProvider.DeleteSkill | src/lib/skills-context.tsx:388-405 | the scan with `break` gives `SkillDeleted` of the old store |
| SkillsContext.SkillsProvider.AddCategory | src/lib/skills-context.tsx:408-415 | the new store is `CategoryAdded` of the old one |
| SkillsContext.SkillsProvider.DeleteCategory | src/lib/skills-context.tsx:418-422 | the new store is `CategoryDeleted` of the old one |
| SkillsContext.SkillsProvider.GetSkillById | src/lib/skills-context.tsx:425-433 | `getSkillById` returns the first skill with that id in the first category holding one, together with that category, and null exactly when no category holds the id |
| SkillsContext.SkillsProvider.GetSkillsByLevel | src/lib/skills-context.tsx:436-448 | the nested `forEach` collects `SkillsInRange` with the bounds defaulting to 0 and 100: category by category in key order, then in list order |
| ProfileAdmin.WithText | src/app/admin/profile/page.tsx:99-107 | `handleChange` sets the named top-level field only; the other fields and the three lists are untouched |
| ProfileAdmin.WithSocialField | src/app/admin/profile/page.tsx:111-114 | `{...link, [field]: value}` sets that field of the link and keeps the other |
| ProfileAdmin.WithEducationField | src/app/admin/profile/page.tsx:128-131 | `{...entry, [field]: value}` sets that field of the entry and keeps the other three |
| ProfileAdmin.WithExperienceField | src/app/admin/profile/page.tsx:144-147 | `{...entry, [field]: value}` sets that field of the entry and keeps the other three |
| ProfileAdmin.SocialEditSpec | src/app/admin/profile/page.tsx:109-120 | editing field f of link i changes only that field of that link; the length, every other link and every other property are unchanged |
| ProfileAdmin.EducationEditSpec | src/app/admin/profile/page.tsx:122-137 | editing field f of education entry i changes only that field of that entry |
| ProfileAdmin.ExperienceEditSpec | src/app/admin/profile/page.tsx:138-153 | editing field f of experience entry i changes only that field of that entry |
| ProfileAdmin.SpliceIndex | src/app/admin/profile/page.tsx:165 | `splice` starts at a non-negative index as given; a negative one in [-length, 0) counts from the end (length + start) and one below -length starts at 0 |
| ProfileAdmin.SplicedSpec | src/app/admin/profile/page.tsx:163-171 | `splice(i, 1)` with i in range deletes exactly entry i, shifts later entries down by one and shrinks the length by 1; a start past the end changes nothing; a negative start in [-length, 0) acts as length + start, and one below -length removes the first entry |
| ProfileAdmin.SpliceAfterAppend | src/app/admin/profile/page.tsx:154-171 | appending an entry and then removing the last index restores the list |
| ProfileAdmin.SpliceOut | src/app/admin/profile/page.tsx:164-165 | splicing a copied array in place, shifting entries left, gives `Spliced` |
| ProfileAdmin.ProfileEditor.constructor | src/app/admin/profile/page.tsx:97 | the local copy starts as the shared profile |
| ProfileAdmin.ProfileEditor.HandleChange | src/app/admin/profile/page.tsx:99-107 | only the local copy changes, to `WithText` of it |
| ProfileAdmin.ProfileEditor.HandleSocialChange | src/app/admin/profile/page.tsx:109-120 | only the local copy changes, to `SocialEdited` of it |
| ProfileAdmin.ProfileEditor.HandleEducationChange | src/app/admin/profile/page.tsx:122-137 | only the local copy changes, to `EducationEdited` of it |
| ProfileAdmin.ProfileEditor.HandleExperienceChange | src/app/admin/profile/page.tsx:138-153 | only the local copy changes, to `ExperienceEdited` of it |
| ProfileAdmin.ProfileEditor.HandleAddEducation | src/app/admin/profile/page.tsx:154-162 | exactly one entry with four empty fields is appended; nothing else changes |
| ProfileAdmin.ProfileEditor.HandleRemoveEducation | src/app/admin/profile/page.tsx:163-171 | the education list becomes `Spliced` of it; nothing else changes |
| ProfileAdmin.ProfileEditor.HandleAddExperience | src/app/admin/profile/page.tsx:172-180 | exactly one entry with four empty fields is appended; nothing else changes |
| ProfileAdmin.ProfileEditor.HandleRemoveExperience | src/app/admin/profile/page.tsx:181-189 | the experience list becomes `Spliced` of it; nothing else changes |
| ProfileAdmin.ProfileEditor.HandleSubmit | src/app/admin/profile/page.tsx:190-200 | the shared profile becomes the whole local profile, which is kept |
| ProfileAdmin.AddThenRemoveEducation | src/app/admin/profile/page.tsx:154-171 | adding an education entry and removing the last one restores the local profile and never touches the shared one |
| NewProjectAdmin.FilterOut | src/app/admin/projects/new/page.tsx:21-23 | the filter removes every copy of the technology and keeps every other entry; an unlisted technology changes nothing |
| NewProjectAdmin.FilterOutAt | src/app/admin/projects/new/page.tsx:21-23 | removing a listed technology deletes exactly its entry and keeps the others in their original order |
| NewProjectAdmin.FilterOutWellFormed | src/app/admin/projects/new/page.tsx:21-23 | removal keeps the list free of duplicates, blanks and untrimmed entries |
| NewProjectAdmin.AddKeepsWellFormed | src/app/admin/projects/new/page.tsx:14-19 | appending an accepted trimmed input keeps the list free of duplicates, blanks and untrimmed entries |
| NewProjectAdmin.AddThenRemove | src/app/admin/projects/new/page.tsx:14-23 | adding a new technology and then removing it restores the list |
| NewProjectAdmin.NewProjectForm.constructor | src/app/admin/projects/new/page.tsx:11-12 | the form starts with no technologies and an empty input |
| NewProjectAdmin.NewProjectForm.SetNewTech | src/app/admin/projects/new/page.tsx:146 | typing changes the input only |
| NewProjectAdmin.NewProjectForm.HandleAddTechnology | src/app/admin/projects/new/page.tsx:14-19 | `trim(newTech)` is appended and the input cleared exactly when it is non-empty and not listed; otherwise list and input are unchanged; the list stays well formed |
| NewProjectAdmin.NewProjectForm.HandleRemoveTechnology | src/app/admin/projects/new/page.tsx:21-23 | the list becomes `FilterOut` of it, the input is unchanged, the list stays well formed |
| NewProjectAdmin.AddUpdatesCounter | src/app/admin/projects/new/page.tsx:137-182 | an accepted add raises the "n added" counter by one and hides the "none yet" placeholder; a rejected add changes neither |
| SkillsAdmin.InitialActive | src/app/admin/skills/page.tsx:12-14 | the first active tab is the first category key, or `""` when there is none |
| SkillsAdmin.NextActiveSpec | src/app/admin/skills/page.tsx:43-47 | after deleting the active category the new tab is the first remaining key in order, which is not the deleted one, or `""` |
| SkillsAdmin.AddCategoryRule | src/app/admin/skills/page.tsx:23-33 | only a non-null, non-blank answer that is not already a category (as typed) is acted on: the trimmed name is added if new and becomes active; if the trimmed name already exists the store is unchanged but the tab still switches; anything else changes nothing |
| SkillsAdmin.DeleteCategoryRule | src/app/admin/skills/page.tsx:35-49 | an unconfirmed delete changes nothing; a confirmed one removes the category and its skills, and moves the active tab only when it was the deleted category |
| SkillsAdmin.SkillsAdminPage.constructor | src/app/admin/skills/page.tsx:12-14 | the page starts on `InitialActive` of the store |
| SkillsAdmin.SkillsAdminPage.HandleDelete | src/app/admin/skills/page.tsx:17-21 | a skill is deleted only when confirmed; the store's loading flag and `localStorage` are left as they were |
| SkillsAdmin.SkillsAdminPage.HandleAddCategory | src/app/admin/skills/page.tsx:23-33 | the store and the tab become `AfterAddCategory` of the old ones; the store's loading flag and `localStorage` are left as they were |
| SkillsAdmin.SkillsAdminPage.HandleDeleteCategory | src/app/admin/skills/page.tsx:35-49 | the store and the tab become `AfterDeleteCategory` of the old ones; the store's loading flag and `localStorage` are left as they were |
| ProjectsAdmin.WithoutProjectMembers | src/app/admin/projects/page.tsx:72-76 | a delete keeps exactly the projects with another id, in their original order |
| ProjectsAdmin.WithoutProjectCount | src/app/admin/projects/page.tsx:72-76 | a delete shrinks the list by the number of projects with that id; an absent id changes nothing |
| ProjectsAdmin.ChipsSpec | src/app/admin/projects/page.tsx:112-124 | a card shows the first min(3, n) technologies, and a `+(n-3)` chip exactly when n > 3 |
| ProjectsAdmin.EmptyAfterDelete | src/app/admin/projects/page.tsx:173 | after a delete the empty state shows exactly when every project had that id |
| ProjectsAdmin.ProjectsAdminPage.constructor | src/app/admin/projects/page.tsx:70 | the list starts as the page's four projects |
| ProjectsAdmin.ProjectsAdminPage.HandleDelete | src/app/admin/projects/page.tsx:72-76 | the list changes only on a confirmed delete, to `WithoutProject` of it |
| ProjectData.SubsequenceBounds | src/components/projects-section.tsx:159-162 | a filtered list is never longer than the list and holds only its projects |
| ProjectsSection.OfCategorySpec | src/components/projects-section.tsx:162 | a category tab shows exactly the projects of that category, in their original order |
| ProjectsSection.FilteredSpec | src/components/projects-section.tsx:159-162 | "All" shows the full list in order; any other tab shows exactly its projects; the result is always a subsequence, so never longer than the full list |
| ProjectsSection.EachProjectUnderOneTab | src/components/projects-section.tsx:20-78 | every project's category is one of the specific tabs, so each project appears under exactly one of them |
| Auth.CheckAuthSpec | src/lib/auth.ts:35-41 | `checkAuth` restores a stored user and ends loading; with nothing stored it only ends loading; storage is never changed; loading continues only when the stored text does not parse |
| Auth.RedirectRules | src/lib/auth.ts:47-63 | no redirect while loading or outside `/admin`; no user on an admin page other than the login page goes to `/admin/login`; a user on the login page goes to `/admin`; at most one push |
| Auth.RedirectsSettle | src/lib/auth.ts:47-63 | the page a redirect leads to is not redirected again |
| Auth.LoginSpec | src/lib/auth.ts:65-79 | login succeeds exactly for `admin@example.com` / `password`, then sets and stores the user "Admin User"; a failed login changes nothing |
| Auth.LoginThenReload | src/lib/auth.ts:35-79 | after a successful login a reload restores the same user |
| Auth.LogoutThenReload | src/lib/auth.ts:35-85 | after a logout a reload finds no user |
| Auth.AuthProvider.constructor | src/lib/auth.ts:27-28 | the session starts without a user and loading |
| Auth.AuthProvider.CheckAuth | src/lib/auth.ts:35-41 | the session becomes `AfterCheckAuth` of it; nothing is pushed |
| Auth.AuthProvider.RedirectEffect | src/lib/auth.ts:47-63 | the pages `Redirects` names are pushed; the session is unchanged |
| Auth.AuthProvider.Login | src/lib/auth.ts:65-79 | the session and the result are `AfterLogin` of the session |
| Auth.AuthProvider.Logout | src/lib/auth.ts:81-85 | user and stored user are cleared and `/admin/login` is pushed |
| SolarSystem.InitialActiveSpec | src/components/ThreeJsSolarSystem.tsx:559-567 | the first category is `fixedCategory`, else the first key, else "Frontend Development", and is never empty; single-category mode shows just the fixed category |
| SolarSystem.OrbitRadiusSpec | src/components/ThreeJsSolarSystem.tsx:685 | orbit radius `5 + 2.5·i` is at least 5 and strictly increasing, so no two planets share an orbit |
| SolarSystem.LevelScaleSpec | src/components/ThreeJsSolarSystem.tsx:696-698 | for levels 0..100 the planet size lies in [1.2, 1.8] and the speed factor in [0.8, 1.2], both increasing with the level |
| SolarSystem.ZoomOnOrbit | src/components/ThreeJsSolarSystem.tsx:576-582 | the camera target for index i is planet i's starting point, which lies on its orbit in the plane y = 0 |
| SolarSystem.LastMatch | src/components/ThreeJsSolarSystem.tsx:574-584 | the `forEach` leaves the zoom target at the last skill with the id, and at none exactly when no skill has it |
| SolarSystem.PlanetClickSpec | src/components/ThreeJsSolarSystem.tsx:569-593 | clicking the selected planet deselects it, clears the zoom target and resets the camera; clicking another selects it, and if it is in the active category zooms to it and stops the reset; with the active category missing from the store the handler throws |
| SolarSystem.ClickTwice | src/components/ThreeJsSolarSystem.tsx:569-593 | two clicks on the same planet end deselected, without a zoom target and resetting |
| SolarSystem.CategoryChangeSpec | src/components/ThreeJsSolarSystem.tsx:596-603 | a category change switches the category, clears selection and zoom target and resets the camera, whatever the state before; it is idempotent |
| SolarSystem.SolarSystemView.constructor | src/components/ThreeJsSolarSystem.tsx:559-564 | the view starts on `InitialActive`, with nothing selected and no zoom |
| SolarSystem.SolarSystemView.PlanetClick | src/components/ThreeJsSolarSystem.tsx:569-593 | the handler, with its `forEach` loop, gives `AfterPlanetClick` of the view |
| SolarSystem.SolarSystemView.CategoryChange | src/components/ThreeJsSolarSystem.tsx:596-603 | the handler gives `AfterCategoryChange` of the view |
| SolarSystem.SolarSystemView.ResetTimerFired | src/components/ThreeJsSolarSystem.tsx:591 | the timer only ends the camera reset |
| NewSkillForm.ValidIff | src/app/admin/skills/new/page.tsx:13-17 | the form is valid iff the name and category are non-empty and 1 ≤ level ≤ 100, and each issue is reported iff its check fails |
| NewSkillForm.DefaultsRejected | src/app/admin/skills/new/page.tsx:35-39 | the defaults fail on name and category but pass on level |
| NewSkillForm.CustomOptionAccepted | src/app/admin/skills/new/page.tsx:130 | the "custom" option passes validation, so it becomes a category named "custom" |
| NewSkillForm.SubmitFilesSkill | src/app/admin/skills/new/page.tsx:53-59 | a submit appends a skill with only an id, the name and the level to the chosen category, creating it if needed, and changes no other category |
| NewSkillForm.NewSkillPage.constructor | src/app/admin/skills/new/page.tsx:30 | the page starts not submitting |
| NewSkillForm.NewSkillPage.Submit | src/app/admin/skills/new/page.tsx:49-59 | with no schema issue, submitting starts and the skill is added through `addSkill`; with issues nothing changes; the store's loading flag and `localStorage` are left as they were |
| NewSkillForm.NewSkillPage.SubmitTimerFired | src/app/admin/skills/new/page.tsx:62-65 | the timer ends submitting and opens `/admin/skills` |

## Left out

- Rendering, styling and animation are not modelled: JSX, Tailwind, Framer Motion, the
  starfield and nebula components, the Three.js scene, the hue bands and the per-frame
  camera interpolation.
- SolarSystem.Position: sines and cosines are parameters. The planet angle
  `(index * 1.618033988749) % (2π)` and the Kepler speed `0.1 / sqrt(radius)` are kept
  symbolic, because they are floating-point and transcendental.
- `JSON.parse` and `JSON.stringify` are parameters. The model assumes a parsed store is
  an object of skill lists, and a parsed user a user or `null`. Other shapes (numbers,
  strings, malformed records) are not modelled.
- SkillsContext.SkillsProvider.Load: the parser is required to return objects with
  distinct keys, as every parsed JSON object has.
- Properties inherited from `Object.prototype` (`"constructor"`, `"toString"`,
  `"__proto__"` …) are not modelled. Every object lookup sees own properties only, so a
  category or skill name equal to one of them behaves as an ordinary name.
- Integer-like keys such as `"42"` are iterated in insertion order in the model, not in
  ascending numeric order as the language does.
- SkillsContext.SkillsProvider.Load and SkillsContext.SkillsProvider.Save take the clock
  `Date.now()` as a natural number, because it counts milliseconds since 1970 and is never
  negative. The load lemmas accept any integer time. The stored timestamp text may still
  parse to a negative number.
- Numbers are exact. Levels and timestamps are integers. Fractional levels, `NaN` from
  the range input and the float precision of huge timestamps are not modelled.
  `parseInt` is modelled with its leading whitespace, sign, `0x` prefix and `NaN` result.
- Timers are methods that fire at once. Random ids are parameters. `window.confirm` and
  `window.prompt` answers are parameters. `router.push` appends to a list, and the path
  it leads to does not feed back into the route guard by itself.
- React's batching and re-rendering are not modelled. Each handler runs on the state of
  its render, and the model runs handlers one after another. In particular,
  `SkillsProvider.addSkill` also writes `skills[category] = []` into the rendered state
  object. Only the resulting value is modelled, not that aliasing.
- ProfileAdmin.ProfileEditor.HandleSocialChange, HandleEducationChange and
  HandleExperienceChange require an index of an existing entry, the only indices the
  form passes. An out-of-range index would create a sparse array, which is not modelled.
- ProfileAdmin: the social links' icon components, the `activeTab` state and the
  profile context's own storage are not modelled.
- Auth.AuthProvider.Login: a `localStorage.setItem` that throws (quota exceeded) after
  the user was set is not modelled. The model assumes storage writes succeed.
- The `AuthContext` wiring is not modelled (the provider returns a plain object and the
  context is never provided). Neither is the login page, which repeats the credential
  check behind a timer.
- SolarSystem.SolarSystemView.PlanetClick: when the handler throws, the model keeps
  the selection update that was queued before the throw.
- The new-project form's other fields and its submit, the email route, and the static
  pages are not modelled. `getAvailableSkillIcons` and `getCategoryColors` return
  constants and are not modelled either.
