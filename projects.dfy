/**
 * The project gallery (src/pages/Projects.js): a list loaded once after a
 * simulated delay, and a category filter that derives the visible list from it.
 */
module Projects {

  datatype Project = Project(
    id: int, title: string, description: string, image: string,
    tags: seq<string>, category: string, liveLink: string, githubLink: string)

  /** The filter value that means "no filter". */
  const AllCategory := "all"

  /** The categories the filter buttons offer, "all" first. */
  const FilterButtons: seq<string> := [AllCategory, "frontend", "backend", "fullstack"]

  // ------------------------------------------------------------- filtering

  /** The projects of category `c`, in their original order. */
  function OfCategory(s: seq<Project>, c: string): (r: seq<Project>)
    ensures |r| <= |s|
    ensures forall i :: 0 <= i < |r| ==> r[i].category == c
  {
    if s == [] then []
    else if s[0].category == c then [s[0]] + OfCategory(s[1..], c)
    else OfCategory(s[1..], c)
  }

  /** The list the gallery shows for filter `c`: everything for "all". */
  function Filtered(s: seq<Project>, c: string): (r: seq<Project>)
    ensures c == AllCategory ==> r == s
    ensures c != AllCategory ==> |r| <= |s| && forall i :: 0 <= i < |r| ==> r[i].category == c
  {
    if c == AllCategory then s else OfCategory(s, c)
  }

  /** `r` is `s` with some elements dropped and the rest kept in order. */
  predicate IsSubsequence<T(==)>(r: seq<T>, s: seq<T>)
    decreases |s|
  {
    if r == [] then true
    else if s == [] then false
    else if r[0] == s[0] then IsSubsequence(r[1..], s[1..])
    else IsSubsequence(r, s[1..])
  }

  lemma {:induction false} IsSubsequenceOfSelf<T>(s: seq<T>)
    ensures IsSubsequence(s, s)
    decreases |s|
  {
    if s != [] {
      IsSubsequenceOfSelf(s[1..]);
    }
  }

  /** Filtering keeps the original relative order. */
  lemma {:induction false} OfCategoryIsSubsequence(s: seq<Project>, c: string)
    ensures IsSubsequence(OfCategory(s, c), s)
    decreases |s|
  {
    if s != [] {
      OfCategoryIsSubsequence(s[1..], c);
      var r := OfCategory(s[1..], c);
      if s[0].category == c {
        assert ([s[0]] + r)[1..] == r;
      } else if r != [] {
        // r[0] has category c and s[0] has not, so matching skips s[0]
        assert r[0] != s[0];
      }
    }
  }

  /** Filtering keeps every project of the category as often as it occurs, and nothing else. */
  lemma {:induction false} OfCategoryCounts(s: seq<Project>, c: string, p: Project)
    ensures multiset(OfCategory(s, c))[p] == if p.category == c then multiset(s)[p] else 0
    decreases |s|
  {
    if s != [] {
      OfCategoryCounts(s[1..], c, p);
      assert s == [s[0]] + s[1..];
      assert multiset(s) == multiset([s[0]]) + multiset(s[1..]);
    }
  }

  /** "all" shows the whole list; any other category an order-preserving selection of exactly its projects. */
  lemma FilteredMeaning(s: seq<Project>, c: string)
    ensures c == AllCategory ==> Filtered(s, c) == s
    ensures c != AllCategory ==> forall i :: 0 <= i < |Filtered(s, c)| ==> Filtered(s, c)[i].category == c
    ensures c != AllCategory ==> forall p :: multiset(Filtered(s, c))[p] == if p.category == c then multiset(s)[p] else 0
    ensures IsSubsequence(Filtered(s, c), s)
  {
    if c == AllCategory {
      IsSubsequenceOfSelf(s);
    } else {
      OfCategoryIsSubsequence(s, c);
      forall p ensures multiset(Filtered(s, c))[p] == if p.category == c then multiset(s)[p] else 0 {
        OfCategoryCounts(s, c, p);
      }
    }
  }

  /** A category other than "all" shows nothing exactly when no project has it. */
  lemma FilteredEmptyIff(s: seq<Project>, c: string)
    requires c != AllCategory
    ensures Filtered(s, c) == [] <==> forall i :: 0 <= i < |s| ==> s[i].category != c
  {
    var r := Filtered(s, c);
    if r != [] {
      OfCategoryCounts(s, c, r[0]);
      assert r[0] in multiset(r);
      var i :| 0 <= i < |s| && s[i] == r[0];
      assert s[i].category == c;
    }
    forall i | 0 <= i < |s| && s[i].category == c ensures r != [] {
      OfCategoryCounts(s, c, s[i]);
      assert s[i] in multiset(s);
    }
  }

  // -------------------------------------------------------------- the data

  /** The list the simulated fetch delivers after its 1000 ms delay. */
  const FetchedProjects: seq<Project> := [
    Project(1, "E-Commerce Platform",
      "A full-featured e-commerce platform with payment integration, user authentication, and admin dashboard.",
      "https://via.placeholder.com/600x400", ["React", "Node.js", "MongoDB", "Express", "Stripe"],
      "fullstack", "https://example.com", "https://github.com"),
    Project(2, "Social Media Dashboard",
      "Analytics dashboard for social media performance tracking with real-time data visualization.",
      "https://via.placeholder.com/600x400", ["React", "Chart.js", "Node.js", "Express"],
      "frontend", "https://example.com", "https://github.com"),
    Project(3, "Task Management App",
      "A collaborative task management application with real-time updates and team collaboration features.",
      "https://via.placeholder.com/600x400", ["React", "Socket.io", "Node.js", "MongoDB"],
      "fullstack", "https://example.com", "https://github.com"),
    Project(4, "Weather Forecast App",
      "A weather forecast application with location-based weather data and 7-day forecast.",
      "https://via.placeholder.com/600x400", ["React", "API Integration", "Geolocation"],
      "frontend", "https://example.com", "https://github.com"),
    Project(5, "Blog CMS",
      "A content management system for blogs with markdown support and image uploads.",
      "https://via.placeholder.com/600x400", ["Node.js", "Express", "MongoDB", "RESTful API"],
      "backend", "https://example.com", "https://github.com"),
    Project(6, "Real Estate Listing Platform",
      "A platform for real estate listings with search, filtering, and user accounts.",
      "https://via.placeholder.com/600x400", ["React", "Node.js", "PostgreSQL", "Express"],
      "fullstack", "https://example.com", "https://github.com")
  ]

  /** The ids of a list of projects, in order. */
  function Ids(s: seq<Project>): seq<int> {
    seq(|s|, i requires 0 <= i < |s| => s[i].id)
  }

  // -------------------------------------------------------------- the page

  /** What the page shows below the filter buttons. */
  datatype ProjectsView = LoadingProjects | Grid(cards: seq<Project>) | NoProjectsFound

  /** Loading text first; then the grid, or the empty state when the visible list is empty. */
  function ViewOf(loading: bool, visible: seq<Project>): (v: ProjectsView)
    ensures v.LoadingProjects? <==> loading
    ensures v.NoProjectsFound? <==> !loading && visible == []
    ensures v.Grid? ==> v.cards == visible
  {
    if loading then LoadingProjects else if |visible| > 0 then Grid(visible) else NoProjectsFound
  }

  class ProjectsPage {
    var projects: seq<Project>
    var filteredProjects: seq<Project>
    var activeFilter: string
    var loading: bool

    /** Before the load nothing is listed; after it the full list is the fetched one;
        the visible list is always an ordered selection of the full one. */
    ghost predicate Valid()
      reads this
    {
      && (loading ==> projects == [] && filteredProjects == [])
      && (!loading ==> projects == FetchedProjects)
      && IsSubsequence(filteredProjects, projects)
    }

    /** Mount: empty lists, filter "all", loading; the 1000 ms load timer is started. */
    constructor ()
      ensures Valid()
      ensures projects == [] && filteredProjects == [] && activeFilter == AllCategory && loading
    {
      projects := [];
      filteredProjects := [];
      activeFilter := AllCategory;
      loading := true;
    }

    /** The load timer expires: both lists become the fetched list; the filter value is left alone. */
    method LoadTimerFires()
      requires Valid() && loading
      modifies this
      ensures Valid()
      ensures projects == FetchedProjects && filteredProjects == FetchedProjects && !loading
      ensures activeFilter == old(activeFilter)
    {
      projects := FetchedProjects;
      filteredProjects := FetchedProjects;
      loading := false;
      IsSubsequenceOfSelf(FetchedProjects);
    }

    method HandleFilterChange(category: string)
      requires Valid()
      modifies this
      ensures Valid()
      ensures activeFilter == category
      ensures filteredProjects == Filtered(projects, category)
      ensures projects == old(projects) && loading == old(loading)
    {
      activeFilter := category;
      if category == AllCategory {
        filteredProjects := projects;
      } else {
        filteredProjects := OfCategory(projects, category);
      }
      FilteredMeaning(projects, category);
    }

    /** A filter button is highlighted exactly when its value is the active filter. */
    function ButtonActive(category: string): (b: bool)
      reads this
      ensures b <==> activeFilter == category
    {
      activeFilter == category
    }

    function View(): (v: ProjectsView)
      reads this
      ensures v.NoProjectsFound? <==> !loading && filteredProjects == []
    {
      ViewOf(loading, filteredProjects)
    }
  }

  // ------------------------------------------------------------ scenarios

  /** One step of the filter over a list with a first element. */
  lemma OfCategoryUnfold(s: seq<Project>, k: nat, c: string)
    requires k < |s|
    ensures OfCategory(s[k..], c) == (if s[k].category == c then [s[k]] else []) + OfCategory(s[k + 1..], c)
  {
    assert s[k..][1..] == s[k + 1..];
  }

  /** The categories of the fetched list, in order. */
  lemma FetchedCategories()
    ensures |FetchedProjects| == 6
    ensures FetchedProjects[0].category == "fullstack" && FetchedProjects[1].category == "frontend"
    ensures FetchedProjects[2].category == "fullstack" && FetchedProjects[3].category == "frontend"
    ensures FetchedProjects[4].category == "backend" && FetchedProjects[5].category == "fullstack"
    ensures forall i :: 0 <= i < 6 ==> FetchedProjects[i].id == i + 1
  {
  }

  /** Filtering a six-element list whose categories are those of the fetched list. */
  lemma SixOfCategory(s: seq<Project>, c: string)
    requires |s| == 6 && c in FilterButtons[1..]
    requires s[0].category == "fullstack" && s[1].category == "frontend"
    requires s[2].category == "fullstack" && s[3].category == "frontend"
    requires s[4].category == "backend" && s[5].category == "fullstack"
    ensures OfCategory(s, c) ==
      if c == "frontend" then [s[1], s[3]] else if c == "backend" then [s[4]] else [s[0], s[2], s[5]]
  {
    assert s[6..] == [] && s[0..] == s;
    if c == "frontend" {
      OfCategoryUnfold(s, 5, c);
      assert OfCategory(s[5..], c) == [];
      OfCategoryUnfold(s, 4, c);
      assert OfCategory(s[4..], c) == [];
      OfCategoryUnfold(s, 3, c);
      assert OfCategory(s[3..], c) == [s[3]];
      OfCategoryUnfold(s, 2, c);
      assert OfCategory(s[2..], c) == [s[3]];
      OfCategoryUnfold(s, 1, c);
      assert OfCategory(s[1..], c) == [s[1], s[3]];
      OfCategoryUnfold(s, 0, c);
      assert OfCategory(s[0..], c) == [s[1], s[3]];
    } else if c == "backend" {
      OfCategoryUnfold(s, 5, c);
      assert OfCategory(s[5..], c) == [];
      OfCategoryUnfold(s, 4, c);
      assert OfCategory(s[4..], c) == [s[4]];
      OfCategoryUnfold(s, 3, c);
      assert OfCategory(s[3..], c) == [s[4]];
      OfCategoryUnfold(s, 2, c);
      assert OfCategory(s[2..], c) == [s[4]];
      OfCategoryUnfold(s, 1, c);
      assert OfCategory(s[1..], c) == [s[4]];
      OfCategoryUnfold(s, 0, c);
      assert OfCategory(s[0..], c) == [s[4]];
    } else {
      OfCategoryUnfold(s, 5, c);
      assert OfCategory(s[5..], c) == [s[5]];
      OfCategoryUnfold(s, 4, c);
      assert OfCategory(s[4..], c) == [s[5]];
      OfCategoryUnfold(s, 3, c);
      assert OfCategory(s[3..], c) == [s[5]];
      OfCategoryUnfold(s, 2, c);
      assert OfCategory(s[2..], c) == [s[2], s[5]];
      OfCategoryUnfold(s, 1, c);
      assert OfCategory(s[1..], c) == [s[2], s[5]];
      OfCategoryUnfold(s, 0, c);
      assert OfCategory(s[0..], c) == [s[0], s[2], s[5]];
    }
  }

  lemma IdsOfShortList(r: seq<Project>)
    ensures |r| == 1 ==> Ids(r) == [r[0].id]
    ensures |r| == 2 ==> Ids(r) == [r[0].id, r[1].id]
    ensures |r| == 3 ==> Ids(r) == [r[0].id, r[1].id, r[2].id]
  {
  }

  lemma FetchedIds()
    ensures Ids(FetchedProjects) == [1, 2, 3, 4, 5, 6]
  {
    FetchedCategories();
    var r := Ids(FetchedProjects);
    assert |r| == 6;
    assert forall i :: 0 <= i < 6 ==> r[i] == i + 1;
  }

  /** The fetched list filtered by category `c`, by id. */
  lemma FetchedOfCategory(c: string)
    requires c in FilterButtons[1..]
    ensures Ids(OfCategory(FetchedProjects, c)) ==
      if c == "frontend" then [2, 4] else if c == "backend" then [5] else [1, 3, 6]
  {
    FetchedCategories();
    SixOfCategory(FetchedProjects, c);
    IdsOfShortList(OfCategory(FetchedProjects, c));
  }

  /** After the load, each button shows the projects of its category, in list order. */
  method FilterScenario() returns (all: seq<int>, frontend: seq<int>, backend: seq<int>, fullstack: seq<int>)
    ensures all == [1, 2, 3, 4, 5, 6]
    ensures frontend == [2, 4] && backend == [5] && fullstack == [1, 3, 6]
  {
    var page := new ProjectsPage();
    page.LoadTimerFires();
    all := Ids(page.filteredProjects);
    FetchedIds();
    FetchedOfCategory("frontend");
    FetchedOfCategory("backend");
    FetchedOfCategory("fullstack");
    page.HandleFilterChange("frontend");
    frontend := Ids(page.filteredProjects);
    page.HandleFilterChange("backend");
    backend := Ids(page.filteredProjects);
    page.HandleFilterChange("fullstack");
    fullstack := Ids(page.filteredProjects);
  }

  /** A filter chosen while the list is still loading stays highlighted after the load,
      but the load shows the whole list, not that category's projects. */
  method FilterBeforeLoadScenario() returns (active: string, shown: seq<Project>)
    ensures active == "frontend" && shown == FetchedProjects
    ensures shown != Filtered(FetchedProjects, active)
  {
    var page := new ProjectsPage();
    page.HandleFilterChange("frontend");
    page.LoadTimerFires();
    active, shown := page.activeFilter, page.filteredProjects;
    assert shown[0].category == "fullstack";
  }
}
