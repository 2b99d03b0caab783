/**
 * The skills universe (`ThreeJsSolarSystem`): the category whose skills orbit as
 * planets, which planet is selected, where the camera zooms to and when it resets, and
 * the linear parts of the orbit layout.
 *
 * Planet and camera positions are kept symbolic: a point on an orbit is its radius and
 * the index of its planet, whose angle `(index * 1.618033988749) % (2 * Math.PI)` is
 * only ever used through its sine and cosine, which are taken as parameters.
 */
module SolarSystem {
  import opened Wrappers
  import opened JsObject
  import opened SkillsContext

  const DefaultCategory := "Frontend Development"

  /** `fixedCategory || Object.keys(skills)[0] || "Frontend Development"`. */
  function InitialActive(fixedCategory: Option<string>, s: Store): string {
    if fixedCategory.Some? && fixedCategory.value != "" then fixedCategory.value
    else if s != [] && s[0].0 != "" then s[0].0
    else DefaultCategory
  }

  /** `singleCategoryMode && fixedCategory ? [fixedCategory] : Object.keys(skills)`. */
  function Categories(singleCategoryMode: bool, fixedCategory: Option<string>, s: Store): seq<string> {
    if singleCategoryMode && fixedCategory.Some? && fixedCategory.value != "" then [fixedCategory.value]
    else Keys(s)
  }

  /** The first tab is never empty. It is the fixed category when one is given, else the
      first category of the store when that is not `""`, else "Frontend Development";
      in single-category mode it is the one tab shown, and without a fixed category it is
      the first tab shown whenever the store has a non-empty first key. */
  lemma InitialActiveSpec(singleCategoryMode: bool, fixedCategory: Option<string>, s: Store)
    ensures var a := InitialActive(fixedCategory, s);
      && a != ""
      && (fixedCategory.Some? && fixedCategory.value != "" ==> a == fixedCategory.value)
      && (a == DefaultCategory || (fixedCategory.Some? && a == fixedCategory.value) || a in Keys(s))
      && (singleCategoryMode && fixedCategory.Some? && fixedCategory.value != "" ==>
            Categories(singleCategoryMode, fixedCategory, s) == [a])
      && ((fixedCategory.None? || fixedCategory.value == "") && s != [] && s[0].0 != "" ==>
            Categories(singleCategoryMode, fixedCategory, s)[0] == a)
  {
  }

  // ---------------------------------------------------------------------------
  // Layout

  /** `5 + index * 2.5`. */
  function OrbitRadius(index: nat): real {
    5.0 + index as real * 2.5
  }

  /** Orbits start at radius 5 and grow with the index, so no two planets share one. */
  lemma OrbitRadiusSpec(i: nat, j: nat)
    ensures OrbitRadius(i) >= 5.0
    ensures i < j ==> OrbitRadius(i) < OrbitRadius(j)
    ensures OrbitRadius(i) == OrbitRadius(j) ==> i == j
  {
  }

  /** `0.8 + (level / 100) * 0.4`. */
  function SpeedVariation(level: int): real {
    0.8 + (level as real / 100.0) * 0.4
  }

  /** `1.2 + (level / 100) * 0.6`. */
  function PlanetSize(level: int): real {
    1.2 + (level as real / 100.0) * 0.6
  }

  /** For levels 0 to 100 a planet's size lies in [1.2, 1.8] and its speed factor in
      [0.8, 1.2]; both grow with the level. */
  lemma LevelScaleSpec(level: int, other: int)
    requires 0 <= level <= 100
    ensures 1.2 <= PlanetSize(level) <= 1.8
    ensures 0.8 <= SpeedVariation(level) <= 1.2
    ensures level < other ==> PlanetSize(level) < PlanetSize(other) && SpeedVariation(level) < SpeedVariation(other)
  {
  }

  /** A point on the orbit of planet `slot`: `(sin(angle) * radius, 0, cos(angle) * radius)`
      with the planet's fixed angle. */
  datatype OrbitPoint = OrbitPoint(radius: real, slot: nat)

  /** Where planet `index` starts, as the render places it. */
  function PlanetStart(index: nat): OrbitPoint {
    OrbitPoint(OrbitRadius(index), index)
  }

  /** The zoom target `handlePlanetClick` computes for the planet at `index`. */
  function ZoomPoint(index: nat): OrbitPoint {
    OrbitPoint(5.0 + index as real * 2.5, index)
  }

  /** The coordinates of a point, given the sine and cosine of each planet's angle. */
  function Position(p: OrbitPoint, sinOf: nat -> real, cosOf: nat -> real): (real, real, real) {
    (sinOf(p.slot) * p.radius, 0.0, cosOf(p.slot) * p.radius)
  }

  /** The camera zooms to exactly where the planet starts, and that point lies on the
      planet's orbit: at distance `5 + 2.5 * index` from the sun, in the plane y = 0. */
  lemma ZoomOnOrbit(index: nat, sinOf: nat -> real, cosOf: nat -> real)
    requires sinOf(index) * sinOf(index) + cosOf(index) * cosOf(index) == 1.0
    ensures ZoomPoint(index) == PlanetStart(index)
    ensures var (x, y, z) := Position(ZoomPoint(index), sinOf, cosOf);
      y == 0.0 && x * x + z * z == OrbitRadius(index) * OrbitRadius(index)
  {
    var r := OrbitRadius(index);
    var s, c := sinOf(index), cosOf(index);
    calc {
      (s * r) * (s * r) + (c * r) * (c * r);
      (s * s + c * c) * (r * r);
      r * r;
    }
  }

  // ---------------------------------------------------------------------------
  // Selection and camera

  /** The last position of a skill with this id in the list: the `forEach` of
      `handlePlanetClick` sets the zoom target at every match, so the last one wins. */
  function LastMatch(l: seq<Skill>, id: string): (r: Option<nat>)
    ensures r.None? <==> !HasId(l, id)
    ensures r.Some? ==> r.value < |l| && l[r.value].id == id
                        && forall j :: r.value < j < |l| ==> l[j].id != id
  {
    if l == [] then None
    else if l[|l| - 1].id == id then Some(|l| - 1)
    else
      var r := LastMatch(l[..|l| - 1], id);
      assert forall j :: 0 <= j < |l| - 1 ==> l[..|l| - 1][j] == l[j];
      r
  }

  /** The view's state: `activeCategory`, `selectedSkillId`, `cameraReset`, `zoomTarget`. */
  datatype View = View(activeCategory: string, selected: Option<string>, cameraReset: bool,
                       zoomTarget: Option<OrbitPoint>)

  /** The view after `handlePlanetClick(skillId)` over the render's `skills`, and whether
      the handler threw: choosing a new planet while the active category is not in the
      store reads `forEach` of `undefined`, after the selection was already set. */
  function AfterPlanetClick(v: View, s: Store, skillId: string): (View, bool) {
    var selected := if v.selected == Some(skillId) then None else Some(skillId);
    if v.selected != Some(skillId) then
      match Lookup(s, v.activeCategory)
      case None => (v.(selected := selected), true)
      case Some(planets) =>
        match LastMatch(planets, skillId)
        case None => (v.(selected := selected), false)
        case Some(i) => (v.(selected := selected, zoomTarget := Some(ZoomPoint(i)), cameraReset := false), false)
    else
      (v.(selected := None, zoomTarget := None, cameraReset := true), false)
  }

  /** Clicking the selected planet deselects it and resets the camera. Clicking another
      selects it; when it orbits in the active category the camera zooms to its last
      occurrence and stops resetting, otherwise zoom and reset stay as they were. The
      active category never changes. */
  lemma PlanetClickSpec(v: View, s: Store, skillId: string)
    ensures var (r, threw) := AfterPlanetClick(v, s, skillId);
      && r.activeCategory == v.activeCategory
      && (v.selected == Some(skillId) ==>
            !threw && r.selected == None && r.zoomTarget == None && r.cameraReset)
      && (v.selected != Some(skillId) ==>
            r.selected == Some(skillId)
            && (threw <==> v.activeCategory !in Keys(s))
            && (!threw && HasId(SkillsOf(s, v.activeCategory), skillId) ==>
                  var i := LastMatch(SkillsOf(s, v.activeCategory), skillId).value;
                  SkillsOf(s, v.activeCategory)[i].id == skillId
                  && r.zoomTarget == Some(PlanetStart(i)) && !r.cameraReset)
            && (!HasId(SkillsOf(s, v.activeCategory), skillId) ==>
                  r.zoomTarget == v.zoomTarget && r.cameraReset == v.cameraReset))
  {
  }

  /** Clicking the same planet twice selects it and then deselects it, leaving the camera
      resetting with no zoom target. */
  lemma ClickTwice(v: View, s: Store, skillId: string)
    requires v.selected != Some(skillId) && v.activeCategory in Keys(s)
    ensures var (once, _) := AfterPlanetClick(v, s, skillId);
      var (twice, threw) := AfterPlanetClick(once, s, skillId);
      !threw && twice == v.(selected := None, zoomTarget := None, cameraReset := true)
  {
  }

  /** The view after `handleCategoryChange(category)`. */
  function AfterCategoryChange(v: View, category: string): View {
    View(category, None, true, None)
  }

  /** A category change switches the category, clears the selection and the zoom target
      and starts a camera reset, whatever the view was; doing it twice is doing it once. */
  lemma CategoryChangeSpec(v: View, w: View, category: string)
    ensures var r := AfterCategoryChange(v, category);
      && r.activeCategory == category && r.selected == None && r.zoomTarget == None && r.cameraReset
      && r == AfterCategoryChange(w, category)
      && AfterCategoryChange(r, category) == r
  {
  }

  class SolarSystemView {
    var activeCategory: string
    var selectedSkillId: Option<string>
    var cameraReset: bool
    var zoomTarget: Option<OrbitPoint>

    function State(): View
      reads this
    {
      View(activeCategory, selectedSkillId, cameraReset, zoomTarget)
    }

    /** First render over the store's `skills`. */
    constructor (fixedCategory: Option<string>, s: Store)
      ensures State() == View(InitialActive(fixedCategory, s), None, false, None)
    {
      activeCategory := InitialActive(fixedCategory, s);
      selectedSkillId := None;
      cameraReset := false;
      zoomTarget := None;
    }

    /** `handlePlanetClick(skillId)`; `threw` tells that the handler stopped with an
        error. */
    method PlanetClick(s: Store, skillId: string) returns (threw: bool)
      modifies this
      ensures (State(), threw) == AfterPlanetClick(old(State()), s, skillId)
    {
      var previous := selectedSkillId;
      selectedSkillId := if previous == Some(skillId) then None else Some(skillId);
      if previous != Some(skillId) {
        var planets := Lookup(s, activeCategory);
        if planets.None? {
          return true;
        }
        var list := planets.value;
        var index := 0;
        while index < |list|
          invariant 0 <= index <= |list|
          invariant activeCategory == old(activeCategory) && selectedSkillId == Some(skillId)
          invariant LastMatch(list[..index], skillId).None? ==>
                      zoomTarget == old(zoomTarget) && cameraReset == old(cameraReset)
          invariant LastMatch(list[..index], skillId).Some? ==>
                      zoomTarget == Some(ZoomPoint(LastMatch(list[..index], skillId).value)) && !cameraReset
        {
          assert list[..index + 1][..index] == list[..index];
          if list[index].id == skillId {
            zoomTarget := Some(ZoomPoint(index));
            cameraReset := false;
          }
          index := index + 1;
        }
        assert list[..index] == list;
      } else {
        zoomTarget := None;
        cameraReset := true;
      }
      return false;
    }

    /** `handleCategoryChange(category)`. */
    method CategoryChange(category: string)
      modifies this
      ensures State() == AfterCategoryChange(old(State()), category)
    {
      selectedSkillId := None;
      activeCategory := category;
      cameraReset := true;
      zoomTarget := None;
    }

    /** The 2000 ms timer a deselection or category change starts has fired. */
    method ResetTimerFired()
      modifies this
      ensures State() == old(State()).(cameraReset := false)
    {
      cameraReset := false;
    }
  }
}
