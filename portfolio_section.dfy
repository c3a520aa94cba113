/** The portfolio section: three tabs over a fixed project list, cards and the detail dialog. */
module PortfolioSection {
  import opened Common
  import opened ListOps

  datatype Project = Project(id: int, title: string, category: string, image: string, technologies: seq<string>)

  /** The `projects` array; descriptive copy is left out. */
  const Projects: seq<Project> := [
    Project(1, "E-Commerce Platform", "web", "/dark-ecommerce-website.png",
            ["React", "Node.js", "MongoDB", "Stripe"]),
    Project(2, "Health & Fitness App", "mobile", "/fitness-app-workout-tracking.png",
            ["React Native", "Firebase", "Redux", "HealthKit"]),
    Project(3, "Real Estate Dashboard", "web", "/placeholder-lu4l1.png",
            ["Vue.js", "Express", "PostgreSQL", "Chart.js"]),
    Project(4, "Social Media Analytics", "web", "/social-media-analytics-dashboard.png",
            ["React", "Python", "Django", "D3.js"]),
    Project(5, "Delivery Tracking App", "mobile", "/delivery-tracking-app.png",
            ["Flutter", "Firebase", "Google Maps API", "Node.js"]),
    Project(6, "Learning Management System", "web",
            "/placeholder.svg?height=600&width=800&query=learning management system with course content",
            ["Angular", "ASP.NET Core", "SQL Server", "Azure"])
  ]

  datatype Tab = AllTab | WebTab | MobileTab

  const Placeholder := "/placeholder.svg"

  /** The cards a tab lists: all projects, or exactly those of its category, in order. */
  function TabProjects(projects: seq<Project>, tab: Tab): (r: seq<Project>)
    ensures tab == AllTab ==> r == projects
    ensures tab == WebTab ==> forall p :: p in r <==> p in projects && p.category == "web"
    ensures tab == MobileTab ==> forall p :: p in r <==> p in projects && p.category == "mobile"
    ensures tab != AllTab ==> IsSubsequence(r, projects)
  {
    match tab
    case AllTab => projects
    case WebTab =>
      FilterIsSubsequence(projects, (p: Project) => p.category == "web");
      Filter(projects, (p: Project) => p.category == "web")
    case MobileTab =>
      FilterIsSubsequence(projects, (p: Project) => p.category == "mobile");
      Filter(projects, (p: Project) => p.category == "mobile")
  }

  /** Every listed project is web or mobile, so it appears on exactly one of the two category tabs. */
  lemma CategoryTabsPartition()
    ensures forall p :: p in Projects ==> (p in TabProjects(Projects, WebTab) <==> p !in TabProjects(Projects, MobileTab))
    ensures |TabProjects(Projects, WebTab)| + |TabProjects(Projects, MobileTab)| == |Projects|
  {
    assert forall p :: p in Projects ==> p.category == "web" || p.category == "mobile";
    FilterPartition(Projects, (p: Project) => p.category == "web", (p: Project) => p.category == "mobile");
  }

  /** The dialog and card label: "web" is a web application, anything else a mobile app. */
  function CategoryLabel(category: string): (r: string)
    ensures r == "Web Application" <==> category == "web"
    ensures r != "Web Application" ==> r == "Mobile App"
  {
    if category == "web" then "Web Application" else "Mobile App"
  }

  /** `project.image || "/placeholder.svg"`: only the empty string falls back. */
  function ImageSource(image: string): (r: string)
    ensures r != ""
    ensures image != "" ==> r == image
    ensures image == "" ==> r == Placeholder
  {
    if image != "" then image else Placeholder
  }

  class PortfolioState {
    var selectedProject: Option<Project>

    constructor ()
      ensures selectedProject == None && !DialogOpen()
    {
      selectedProject := None;
    }

    predicate DialogOpen()
      reads this
    {
      selectedProject.Some?
    }

    /** A card click on any tab opens the dialog on that project. */
    method SelectProject(p: Project)
      modifies this
      ensures selectedProject == Some(p) && DialogOpen()
    {
      selectedProject := Some(p);
    }

    /** `onOpenChange`: closing clears the selection; an open notification changes nothing. */
    method DialogOpenChange(open: bool)
      modifies this
      ensures !open ==> selectedProject == None && !DialogOpen()
      ensures open ==> selectedProject == old(selectedProject)
    {
      if !open {
        selectedProject := None;
      }
    }
  }
}
