/** The work section: a category tab filter over the projects, their cards and the detail dialog. */
module WorkSection {
  import opened Common
  import opened ListOps

  datatype Project = Project(id: string, title: string, category: string, technologies: seq<string>)

  /** The `projects` array; descriptive copy is left out. */
  const Projects: seq<Project> := [
    Project("project-ai", "Enterprise AI Assistant Platform", "web",
            ["React", "Next.js", "LangChain", "OpenAI API", "Vector DB", "Node.js", "TypeScript"]),
    Project("project-1", "Neuomorphic E-Commerce Platform", "web",
            ["React", "Three.js", "Node.js", "MongoDB", "Stripe", "TensorFlow"]),
    Project("project-2", "Immersive Fitness Experience", "mobile",
            ["React Native", "ARKit", "Firebase", "Redux", "HealthKit", "TensorFlow Lite"]),
    Project("project-3", "Intelligent Real Estate Platform", "web",
            ["Vue.js", "WebGL", "Express", "PostgreSQL", "TensorFlow", "Three.js"]),
    Project("project-4", "Neural Analytics Dashboard", "web",
            ["React", "D3.js", "Python", "Django", "PyTorch", "WebGL"]),
    Project("project-5", "Autonomous Delivery Tracker", "mobile",
            ["Flutter", "TensorFlow", "Google Maps API", "Node.js", "PostgreSQL", "ARCore"]),
    Project("project-6", "Adaptive Learning System", "web",
            ["Angular", "ASP.NET Core", "SQL Server", "Azure", "TensorFlow.js", "WebGL"])
  ]

  const MaxChips := 3

  /** `filteredProjects`: "all" shows every project, any other category exactly its projects. */
  function FilteredProjects(projects: seq<Project>, category: string): (r: seq<Project>)
    ensures category == "all" ==> r == projects
    ensures category != "all" ==> forall p :: p in r <==> p in projects && p.category == category
    ensures category != "all" && (forall i :: 0 <= i < |projects| ==> projects[i].category != category) ==> r == []
    ensures IsSubsequence(r, projects)
  {
    if category == "all" then
      AllIsSubsequence(projects);
      projects
    else
      FilterIsSubsequence(projects, (p: Project) => p.category == category);
      Filter(projects, (p: Project) => p.category == category)
  }

  lemma {:induction false} AllIsSubsequence(s: seq<Project>)
    ensures IsSubsequence(s, s)
  {
    if s != [] {
      AllIsSubsequence(s[1..]);
    }
  }

  /** The chips on a card: the first three technologies. */
  function ShownChips(technologies: seq<string>): (r: seq<string>)
    ensures |r| == Min(MaxChips, |technologies|)
    ensures r == technologies[..|r|]
    ensures |technologies| <= MaxChips ==> r == technologies
  {
    technologies[..Min(MaxChips, |technologies|)]
  }

  /** The "+k" chip, present only when more than three technologies exist; together they account for all. */
  function ExtraChip(technologies: seq<string>): (r: Option<nat>)
    ensures r.Some? <==> |technologies| > MaxChips
    ensures r.Some? ==> r.value == |technologies| - MaxChips
    ensures r.Some? ==> r.value > 0 && |ShownChips(technologies)| + r.value == |technologies|
    ensures r.None? ==> |ShownChips(technologies)| == |technologies|
  {
    if |technologies| > MaxChips then Some(|technologies| - MaxChips) else None
  }

  /** The card and dialog label: "web" is a web application, anything else a mobile app. */
  function CategoryLabel(category: string): (r: string)
    ensures r == "WEB APPLICATION" <==> category == "web"
    ensures r != "WEB APPLICATION" ==> r == "MOBILE APP"
  {
    if category == "web" then "WEB APPLICATION" else "MOBILE APP"
  }

  /** The section's state: the selected project (the dialog) and the active category tab. */
  class WorkSectionState {
    var selectedProject: Option<Project>
    var activeCategory: string

    constructor ()
      ensures selectedProject == None && activeCategory == "all"
      ensures VisibleProjects() == Projects && !DialogOpen()
    {
      selectedProject := None;
      activeCategory := "all";
    }

    /** `open={!!selectedProject}`. */
    predicate DialogOpen()
      reads this
    {
      selectedProject.Some?
    }

    function VisibleProjects(): seq<Project>
      reads this
    {
      FilteredProjects(Projects, activeCategory)
    }

    /** A tab click. */
    method SetCategory(category: string)
      modifies this
      ensures activeCategory == category && selectedProject == old(selectedProject)
      ensures category != "all" ==> forall p :: p in VisibleProjects() <==> p in Projects && p.category == category
    {
      activeCategory := category;
    }

    /** A card click opens the dialog on that project. */
    method SelectProject(p: Project)
      modifies this
      ensures selectedProject == Some(p) && DialogOpen() && activeCategory == old(activeCategory)
    {
      selectedProject := Some(p);
    }

    /** `onOpenChange`: closing clears the selection; an open notification changes nothing. */
    method DialogOpenChange(open: bool)
      modifies this
      ensures !open ==> selectedProject == None && !DialogOpen()
      ensures open ==> selectedProject == old(selectedProject)
      ensures activeCategory == old(activeCategory)
    {
      if !open {
        selectedProject := None;
      }
    }
  }
}
