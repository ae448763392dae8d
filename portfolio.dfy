/**
 * The portfolio section: its own list of six projects, the category buttons and the filtered
 * grid, and the hovered card.
 */
module Portfolio {
  import opened Wrappers
  import opened CategoryFilter

  /** The icon component a project shows. */
  datatype ProjectGlyph = Code2 | Globe | Smartphone | Cpu

  datatype Project = Project(
    id: int, title: string, category: string, description: string, image: string,
    tags: seq<string>, icon: ProjectGlyph, gradient: string)

  const Projects: seq<Project> := [
    Project(1, "Army Communication System", "Enterprise Software",
      "Secure real-time communication platform for military operations with end-to-end encryption.",
      "military-tech", ["React", "Node.js", "WebRTC", "Security"], Code2, "from-cyan-500 to-blue-600"),
    Project(2, "Forest Management Portal", "Web Application",
      "Comprehensive wildlife tracking and forest resource management system with GIS integration.",
      "forest-landscape", ["Angular", "Python", "MongoDB", "GIS"], Globe, "from-green-500 to-emerald-600"),
    Project(3, "Records Verification App", "Mobile Application",
      "Digital platform for Guinness World Records verification and management processes.",
      "award-certificate", ["Flutter", "Firebase", "AI/ML"], Smartphone, "from-purple-500 to-pink-600"),
    Project(4, "Smart IoT Dashboard", "IoT Solution",
      "Real-time monitoring and control system for industrial IoT devices and sensors.",
      "technology-dashboard", ["React", "MQTT", "Arduino", "AWS"], Cpu, "from-orange-500 to-red-600"),
    Project(5, "AI-Powered Analytics", "AI/ML Solution",
      "Machine learning platform for predictive analytics and business intelligence.",
      "data-analytics", ["Python", "TensorFlow", "React", "PostgreSQL"], Code2, "from-blue-500 to-indigo-600"),
    Project(6, "E-Commerce Platform", "Web Application",
      "Scalable multi-vendor marketplace with advanced inventory and payment integration.",
      "online-shopping", ["Next.js", "Node.js", "Stripe", "Redis"], Globe, "from-yellow-500 to-orange-600")
  ]

  const Categories: seq<string> :=
    ["All", "Web Application", "Mobile Application", "IoT Solution", "AI/ML Solution", "Enterprise Software"]

  function ProjectCategory(p: Project): string { p.category }

  function ProjectIds(ps: seq<Project>): seq<int>
  {
    seq(|ps|, i requires 0 <= i < |ps| => ps[i].id)
  }

  /** `filteredProjects` for the active category. */
  function FilteredProjects(active: string): seq<Project>
  {
    FilterOrAll(Projects, ProjectCategory, active)
  }

  /** 'All' shows all six projects in order; any other category shows exactly its projects, in order. */
  lemma FilteredProjectsMeaning(active: string, p: Project)
    ensures active == "All" ==> FilteredProjects(active) == Projects
    ensures active != "All" ==> (p in FilteredProjects(active) <==> p in Projects && p.category == active)
    ensures IsSubsequence(FilteredProjects(active), Projects)
  {
    FilterOrAllMeaning(Projects, ProjectCategory, active, p);
  }

  /** The cards on screen for each category button; a category no project has shows nothing. */
  lemma FilteredProjectsByCategory(active: string)
    requires active != "All"
    ensures FilteredProjects(active) ==
      if active == "Web Application" then [Projects[1], Projects[5]]
      else if active == "Mobile Application" then [Projects[2]]
      else if active == "IoT Solution" then [Projects[3]]
      else if active == "AI/ML Solution" then [Projects[4]]
      else if active == "Enterprise Software" then [Projects[0]]
      else []
  {
    FilterByBuiltInCategories(Projects, active);
  }

  /** 'Web Application' is the one category with two projects: ids 2 and 6. */
  lemma WebApplicationIds()
    ensures ProjectIds(FilteredProjects("Web Application")) == [2, 6]
  {
    FilteredProjectsByCategory("Web Application");
  }

  /** The same over any six projects with the built-in categories in the built-in order. */
  lemma FilterByBuiltInCategories(p: seq<Project>, active: string)
    requires |p| == 6
    requires p[0].category == "Enterprise Software" && p[1].category == "Web Application"
    requires p[2].category == "Mobile Application" && p[3].category == "IoT Solution"
    requires p[4].category == "AI/ML Solution" && p[5].category == "Web Application"
    ensures FilterBy(p, ProjectCategory, active) ==
      if active == "Web Application" then [p[1], p[5]]
      else if active == "Mobile Application" then [p[2]]
      else if active == "IoT Solution" then [p[3]]
      else if active == "AI/ML Solution" then [p[4]]
      else if active == "Enterprise Software" then [p[0]]
      else []
  {
    FilterOfSix(p, ProjectCategory, active);
  }

  /** The portfolio section state. */
  class PortfolioSection {
    var activeCategory: string
    var hoveredProject: Option<int>

    constructor()
      ensures activeCategory == "All" && hoveredProject.None?
    {
      activeCategory := "All";
      hoveredProject := None;
    }

    /** The projects on screen. */
    function Visible(): seq<Project>
      reads this
    {
      FilteredProjects(activeCategory)
    }

    /** A category button. */
    method OnCategoryClick(category: string)
      modifies this
      ensures activeCategory == category && hoveredProject == old(hoveredProject)
    {
      activeCategory := category;
    }

    /** The mouse enters the card of project `id`. */
    method OnHoverStart(id: int)
      modifies this
      ensures hoveredProject == Some(id) && activeCategory == old(activeCategory)
    {
      hoveredProject := Some(id);
    }

    /** The mouse leaves a card. */
    method OnHoverEnd()
      modifies this
      ensures hoveredProject.None? && activeCategory == old(activeCategory)
    {
      hoveredProject := None;
    }
  }
}
