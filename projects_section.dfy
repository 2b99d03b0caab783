/**
 * The project grid of the landing page (`ProjectsSection`): a row of category tabs and
 * the constant project list filtered by the selected tab.
 */
module ProjectsSection {
  import opened ProjectData

  /** The tab that shows every project. */
  const AllTab := "All"

  /** The tabs, in display order (`projectCategories`). */
  const ProjectCategories: seq<string> := [AllTab, "Frontend", "WordPress", "UI Design"]

  /** The tab selected on first render. */
  const InitialCategory := AllTab

  /** `activeCategory === "All" ? projects : projects.filter((p) => p.category === activeCategory)`. */
  function Filtered(projects: seq<Project>, activeCategory: string): seq<Project> {
    if activeCategory == AllTab then projects else OfCategory(projects, activeCategory)
  }

  /** `projects.filter((p) => p.category === category)`. */
  function OfCategory(projects: seq<Project>, category: string): seq<Project> {
    if projects == [] then []
    else
      var last := projects[|projects| - 1];
      OfCategory(projects[..|projects| - 1], category) + (if last.category == category then [last] else [])
  }

  /** A specific tab shows exactly the projects of its category, in their original order,
      and so never more projects than there are. */
  lemma {:induction false} OfCategorySpec(projects: seq<Project>, category: string)
    ensures forall p :: p in OfCategory(projects, category) <==> p in projects && p.category == category
    ensures SubsequenceOf(OfCategory(projects, category), projects)
    ensures |OfCategory(projects, category)| <= |projects|
  {
    if projects != [] {
      var init := projects[..|projects| - 1];
      var last := projects[|projects| - 1];
      OfCategorySpec(init, category);
      assert projects == init + [last];
      var r := OfCategory(projects, category);
      if last.category == category {
        assert r[..|r| - 1] == OfCategory(init, category);
      } else {
        assert r == OfCategory(init, category);
        if r != [] {
          assert r[|r| - 1] in r;
        }
        SubsequenceDropLast(r, projects);
      }
    }
  }

  /** The `"All"` tab shows every project in its original order; any other tab the
      projects of that category, in their original order. */
  lemma FilteredSpec(projects: seq<Project>, activeCategory: string)
    ensures activeCategory == AllTab ==> Filtered(projects, activeCategory) == projects
    ensures activeCategory != AllTab ==>
      forall p :: p in Filtered(projects, activeCategory) <==> p in projects && p.category == activeCategory
    ensures SubsequenceOf(Filtered(projects, activeCategory), projects)
    ensures |Filtered(projects, activeCategory)| <= |projects|
  {
    OfCategorySpec(projects, activeCategory);
    if activeCategory == AllTab {
      SubsequenceSelf(projects);
    }
  }

  /** The projects shown on the landing page (`projectsData`). */
  const ProjectsData: seq<Project> := [
    Project(1, "E-commerce Website",
            "A modern e-commerce platform with product filtering, cart functionality, and payment processing.",
            "/projects/project-1.svg", ["React", "Next.js", "Tailwind CSS", "Stripe"], "Frontend",
            "https://example.com/project1", "https://github.com/yourusername/project1"),
    Project(2, "Corporate Website",
            "Custom WordPress theme development for a corporate client with custom post types and admin features.",
            "/projects/project-2.svg", ["WordPress", "PHP", "JavaScript", "SCSS"], "WordPress",
            "https://example.com/project2", "https://github.com/yourusername/project2"),
    Project(3, "Portfolio Dashboard",
            "Interactive dashboard for tracking portfolio performance with real-time data visualization.",
            "/projects/project-3.svg", ["React", "Chart.js", "Tailwind CSS", "Firebase"], "Frontend",
            "https://example.com/project3", "https://github.com/yourusername/project3"),
    Project(4, "Learning Platform",
            "Online learning platform with course management, progress tracking, and interactive quizzes.",
            "/projects/project-4.svg", ["WordPress", "PHP", "MySQL", "JavaScript"], "WordPress",
            "https://example.com/project4", "https://github.com/yourusername/project4"),
    Project(5, "UI Design System",
            "A comprehensive design system with reusable components, typography, and color schemes.",
            "/projects/project-4.svg", ["Figma", "Sketch", "Adobe XD"], "UI Design",
            "https://example.com/project5", "")
  ]

  /** Every project's category is one of the specific tabs. */
  lemma CategoriesAreTabs()
    ensures forall p :: p in ProjectsData ==> p.category in ProjectCategories[1..]
  {
    forall p | p in ProjectsData
      ensures p.category in ProjectCategories[1..]
    {
      var i :| 0 <= i < |ProjectsData| && ProjectsData[i] == p;
      assert i == 0 || i == 1 || i == 2 || i == 3 || i == 4;
    }
  }

  /** Every project's category is one of the specific tabs, so each project is listed
      under exactly one specific tab (and under `"All"`). */
  lemma EachProjectUnderOneTab()
    ensures forall p :: p in ProjectsData ==> p.category in ProjectCategories[1..]
    ensures forall p, c :: p in ProjectsData && c in ProjectCategories[1..] ==>
              (p in Filtered(ProjectsData, c) <==> c == p.category)
  {
    CategoriesAreTabs();
    forall p, c | p in ProjectsData && c in ProjectCategories[1..]
      ensures p in Filtered(ProjectsData, c) <==> c == p.category
    {
      assert c != AllTab;
      OfCategorySpec(ProjectsData, c);
    }
  }
}
