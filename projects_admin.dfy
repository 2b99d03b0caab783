/**
 * The admin project list (`ProjectsAdmin`): projects deleted by id after a
 * confirmation, and the technology chips each card shows.
 */
module ProjectsAdmin {
  import opened Wrappers
  import opened ProjectData

  /** The number of projects with this id. */
  function CountId(l: seq<Project>, id: int): nat {
    if l == [] then 0 else CountId(l[..|l| - 1], id) + (if l[|l| - 1].id == id then 1 else 0)
  }

  /** `projects.filter((project) => project.id !== id)`. */
  function WithoutProject(l: seq<Project>, id: int): seq<Project> {
    if l == [] then []
    else
      var last := l[|l| - 1];
      WithoutProject(l[..|l| - 1], id) + (if last.id != id then [last] else [])
  }

  /** Deleting by id keeps exactly the projects with another id, in their order. */
  lemma {:induction false} WithoutProjectMembers(l: seq<Project>, id: int)
    ensures forall p :: p in WithoutProject(l, id) <==> p in l && p.id != id
    ensures SubsequenceOf(WithoutProject(l, id), l)
  {
    if l != [] {
      var init := l[..|l| - 1];
      var last := l[|l| - 1];
      WithoutProjectMembers(init, id);
      assert l == init + [last];
      var r := WithoutProject(l, id);
      if last.id != id {
        assert r[..|r| - 1] == WithoutProject(init, id);
      } else {
        assert r == WithoutProject(init, id);
        if r != [] {
          assert r[|r| - 1] in r;
        }
        SubsequenceDropLast(r, l);
      }
    }
  }

  /** Deleting by id shrinks the list by the number of projects with that id; an id no
      project has changes nothing. */
  lemma {:induction false} WithoutProjectCount(l: seq<Project>, id: int)
    ensures |WithoutProject(l, id)| == |l| - CountId(l, id)
    ensures CountId(l, id) == 0 ==> WithoutProject(l, id) == l
  {
    if l != [] {
      var init := l[..|l| - 1];
      WithoutProjectCount(init, id);
      assert l == init + [l[|l| - 1]];
    }
  }

  /** The chips of a card: the first three technologies, and the count behind the `+n`
      chip when there are more. */
  function Chips(technologies: seq<string>): (seq<string>, Option<nat>) {
    if |technologies| > 3 then (technologies[..3], Some(|technologies| - 3))
    else (technologies, None)
  }

  /** A card shows the first min(3, n) technologies in order, with a `+(n - 3)` chip
      exactly when n > 3, so every technology is either shown or counted. */
  lemma ChipsSpec(technologies: seq<string>)
    ensures var (shown, more) := Chips(technologies);
      && |shown| == (if |technologies| < 3 then |technologies| else 3)
      && shown == technologies[..|shown|]
      && (more.Some? <==> |technologies| > 3)
      && |shown| + more.GetOr(0) == |technologies|
      && (more.Some? ==> more.value > 0)
  {
  }

  /** Whether the "No projects yet" block is shown. */
  predicate ShowsEmptyState(projects: seq<Project>) {
    |projects| == 0
  }

  /** After a delete the empty state shows exactly when every project had that id. */
  lemma EmptyAfterDelete(l: seq<Project>, id: int)
    ensures ShowsEmptyState(WithoutProject(l, id)) <==> forall p :: p in l ==> p.id == id
  {
    WithoutProjectMembers(l, id);
    if !ShowsEmptyState(WithoutProject(l, id)) {
      var r := WithoutProject(l, id);
      assert r[0] in r;
    }
  }

  /** The projects the page starts with (`projectsData`). */
  const AdminProjects: seq<Project> := [
    Project(1, "E-commerce Website",
            "A modern e-commerce platform with product filtering, cart functionality, and payment processing.",
            "/projects/project-1.jpg", ["React", "Next.js", "Tailwind CSS", "Stripe"], "Full-Stack",
            "https://example.com/project1", "https://github.com/yourusername/project1"),
    Project(2, "Corporate Website",
            "Custom WordPress theme development for a corporate client with custom post types and admin features.",
            "/projects/project-2.jpg", ["WordPress", "PHP", "JavaScript", "SCSS"], "WordPress",
            "https://example.com/project2", "https://github.com/yourusername/project2"),
    Project(3, "Portfolio Dashboard",
            "Interactive dashboard for tracking portfolio performance with real-time data visualization.",
            "/projects/project-3.jpg", ["React", "Chart.js", "Tailwind CSS", "Firebase"], "Frontend",
            "https://example.com/project3", "https://github.com/yourusername/project3"),
    Project(4, "Blog Platform",
            "Custom WordPress multisite installation with membership features and content restriction.",
            "/projects/project-4.jpg", ["WordPress", "PHP", "MySQL", "JavaScript"], "WordPress",
            "https://example.com/project4", "https://github.com/yourusername/project4")
  ]

  class ProjectsAdminPage {
    /** The `projects` state. */
    var projects: seq<Project>

    constructor ()
      ensures projects == AdminProjects
    {
      projects := AdminProjects;
    }

    /** `handleDelete(id)`; `confirmed` is the answer to `window.confirm`. */
    method HandleDelete(id: int, confirmed: bool)
      modifies this
      ensures projects == if confirmed then WithoutProject(old(projects), id) else old(projects)
    {
      if confirmed {
        projects := WithoutProject(projects, id);
      }
    }
  }
}
