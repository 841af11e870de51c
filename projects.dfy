/**
 * The project gallery: a fixed catalogue of projects, a row of category
 * filter buttons, the filtered grid in catalogue order, and per-card derived
 * views (status badge, hover overlay, truncated tech stack).
 */
module Projects {
  import opened Wrappers

  /** `all` is a filter value only; the projects carry the other four. */
  datatype Category = All | Web | Data | Cloud | Analytics

  datatype Status = Completed | InProgress

  /** A catalogue entry; the icon and gradient are presentation only and are not kept. */
  datatype Project = Project(
    title: string,
    description: string,
    category: seq<Category>,
    techStack: seq<string>,
    github: Option<string>,
    demo: Option<string>,
    status: Option<Status>)

  const Catalogue: seq<Project> := [
    Project("E-Learning Platform",
      "Full-stack educational platform with course management, user authentication, and progress tracking. Built with MERN stack.",
      [Web], ["React", "Node.js", "MongoDB", "Express", "JWT"],
      Some("https://github.com/Tusneld"), None, Some(InProgress)),
    Project("AWS Serverless API",
      "RESTful API built with AWS Lambda, API Gateway, and DynamoDB. Implements serverless architecture patterns.",
      [Cloud, Web], ["AWS Lambda", "API Gateway", "DynamoDB", "Node.js", "CloudFormation"],
      Some("https://github.com/Tusneld"), None, Some(InProgress)),
    Project("Data Pipeline with AWS Glue",
      "ETL pipeline for processing and transforming large datasets using AWS Glue and Redshift for analytics.",
      [Data, Cloud, Analytics], ["AWS Glue", "Redshift", "Python", "PySpark", "S3"],
      Some("https://github.com/Tusneld"), None, Some(InProgress)),
    Project("Medical Reality Show Database",
      "Designed and implemented a relational database model using MS SQL Server for efficient data storage and retrieval.",
      [Data, Analytics], ["MS SQL Server", "Database Design", "Data Modeling", "ERD"],
      Some("https://github.com/Tusneld/medical-reality-show-database-design"), None, Some(Completed)),
    Project("Sales Analysis Dashboard",
      "Interactive sales analytics dashboard using Excel Pivot Tables and Power BI for business intelligence.",
      [Analytics], ["Excel", "Pivot Tables", "Power BI", "Data Visualization"],
      None, None, Some(Completed)),
    Project("Data Cleaning with Excel",
      "Performed comprehensive data cleaning and preprocessing on large datasets using Excel to ensure data quality and integrity.",
      [Analytics], ["Excel", "Data Cleaning", "Data Quality", "Formulas"],
      None, None, Some(Completed)),
    Project("Containerized Web App",
      "Deploying containerized applications using AWS ECS and ECR with CI/CD pipelines.",
      [Cloud, Web], ["Docker", "AWS ECS", "ECR", "CodePipeline", "React"],
      Some("https://github.com/Tusneld"), None, Some(InProgress)),
    Project("Project Management Workflow",
      "Kanban-style project management workflow using Trello for agile team coordination.",
      [Web], ["Trello", "Agile", "Scrum", "Project Management"],
      None, Some("https://trello.com/b/vHcxFj75/kanye-kim-wedding-schedule"), Some(Completed))
  ]

  datatype FilterButton = FilterButton(caption: string, value: Category)

  const Filters: seq<FilterButton> := [
    FilterButton("All Projects", All),
    FilterButton("Web Development", Web),
    FilterButton("Data Analysis", Analytics),
    FilterButton("Data Engineering", Data),
    FilterButton("Cloud / AWS", Cloud)
  ]

  /** A project is shown under `all` and under any category it is tagged with. */
  predicate Shown(p: Project, f: Category)
  {
    f == All || f in p.category
  }

  /** The grid's contents: the projects shown under `f`, in their original order. */
  function Filter(ps: seq<Project>, f: Category): (r: seq<Project>)
    ensures |r| <= |ps|
    decreases |ps|
  {
    if ps == [] then []
    else (if Shown(ps[0], f) then [ps[0]] else []) + Filter(ps[1..], f)
  }

  /** The grid holds exactly the projects of `ps` that are shown under `f`. */
  lemma {:induction false} FilterMembers(ps: seq<Project>, f: Category)
    ensures forall p :: p in Filter(ps, f) <==> p in ps && Shown(p, f)
    decreases |ps|
  {
    if ps != [] {
      FilterMembers(ps[1..], f);
      assert ps == [ps[0]] + ps[1..];
    }
  }

  /** Filtering keeps order: the filter of a concatenation is the concatenation of the filters. */
  lemma {:induction false} FilterConcat(a: seq<Project>, b: seq<Project>, f: Category)
    ensures Filter(a + b, f) == Filter(a, f) + Filter(b, f)
    decreases |a|
  {
    if a != [] {
      assert (a + b)[1..] == a[1..] + b;
      FilterConcat(a[1..], b, f);
    } else {
      assert a + b == b;
    }
  }

  /** Filtering a single project keeps it exactly when it is shown. */
  lemma FilterSingle(p: Project, f: Category)
    ensures Filter([p], f) == if Shown(p, f) then [p] else []
  {
  }

  /** Each project keeps its multiplicity when shown and disappears otherwise. */
  lemma {:induction false} FilterCounts(ps: seq<Project>, f: Category, p: Project)
    ensures multiset(Filter(ps, f))[p] == if Shown(p, f) then multiset(ps)[p] else 0
    decreases |ps|
  {
    if ps != [] {
      FilterCounts(ps[1..], f, p);
      assert ps == [ps[0]] + ps[1..];
    }
  }

  /** Under `all` the grid is the whole catalogue in its original order. */
  lemma {:induction false} FilterAll(ps: seq<Project>)
    ensures Filter(ps, All) == ps
    decreases |ps|
  {
    if ps != [] {
      FilterAll(ps[1..]);
      assert ps == [ps[0]] + ps[1..];
    }
  }

  /** Filtering the filtered grid by the same category changes nothing. */
  lemma {:induction false} FilterIdempotent(ps: seq<Project>, f: Category)
    ensures Filter(Filter(ps, f), f) == Filter(ps, f)
    decreases |ps|
  {
    if ps != [] {
      var head := if Shown(ps[0], f) then [ps[0]] else [];
      FilterConcat(head, Filter(ps[1..], f), f);
      FilterIdempotent(ps[1..], f);
      if Shown(ps[0], f) {
        FilterSingle(ps[0], f);
      }
    }
  }

  /** A category no project carries gives an empty grid, not an error. */
  lemma FilterNoMatch(ps: seq<Project>, f: Category)
    requires forall i :: 0 <= i < |ps| ==> !Shown(ps[i], f)
    ensures Filter(ps, f) == []
  {
    FilterMembers(ps, f);
  }

  function Titles(ps: seq<Project>): (r: seq<string>)
    ensures |r| == |ps| && forall i :: 0 <= i < |ps| ==> r[i] == ps[i].title
  {
    if ps == [] then [] else [ps[0].title] + Titles(ps[1..])
  }

  /** The cloud filter shows exactly the three cloud projects, in catalogue order. */
  lemma CloudProjects()
    ensures Titles(Filter(Catalogue, Cloud)) ==
            ["AWS Serverless API", "Data Pipeline with AWS Glue", "Containerized Web App"]
  {
  }

  /** Titles identify the cards: no two catalogue entries share one. */
  lemma CatalogueTitlesDistinct()
    ensures forall i, j :: 0 <= i < j < |Catalogue| ==> Catalogue[i].title != Catalogue[j].title
  {
  }

  /** The number of buttons whose value is `f`. */
  function ButtonsFor(buttons: seq<FilterButton>, f: Category): (n: nat)
    ensures n <= |buttons|
    ensures n == 0 <==> forall i :: 0 <= i < |buttons| ==> buttons[i].value != f
  {
    if buttons == [] then 0
    else (if buttons[0].value == f then 1 else 0) + ButtonsFor(buttons[1..], f)
  }

  /** Every category has exactly one button, so whatever the active filter, exactly one button is marked active. */
  lemma OneButtonPerCategory(f: Category)
    ensures ButtonsFor(Filters, f) == 1
    ensures exists i :: 0 <= i < |Filters| && Filters[i].value == f
    ensures forall i, j :: 0 <= i < j < |Filters| ==> Filters[i].value != Filters[j].value
  {
  }

  /** The status badge's text, absent when the project has no status. */
  function StatusLabel(s: Option<Status>): (badge: Option<string>)
    ensures badge.Some? <==> s.Some?
    ensures badge == Some("Completed") <==> s == Some(Completed)
    ensures badge == Some("In Progress") <==> s == Some(InProgress)
  {
    match s
    case None => None
    case Some(Completed) => Some("Completed")
    case Some(InProgress) => Some("In Progress")
  }

  /** The links in the hover overlay: GitHub first, then the demo, each only when present and non-empty. */
  function OverlayLinks(p: Project): (links: seq<string>)
    ensures |links| <= 2
    ensures Truthy(p.github) ==> |links| >= 1 && links[0] == p.github.value
    ensures Truthy(p.demo) ==> |links| >= 1 && links[|links| - 1] == p.demo.value
    ensures forall l :: l in links ==> l != [] && (Some(l) == p.github || Some(l) == p.demo)
    ensures |links| == (if Truthy(p.github) then 1 else 0) + (if Truthy(p.demo) then 1 else 0)
  {
    (if Truthy(p.github) then [p.github.value] else []) + (if Truthy(p.demo) then [p.demo.value] else [])
  }

  /** The tech-stack row: at most four entries and a "+k" badge for the rest. */
  datatype TechRow = TechRow(shown: seq<string>, more: Option<nat>)

  const MaxShownTech: nat := 4

  function TechStackRow(stack: seq<string>): (r: TechRow)
    ensures r.shown <= stack
    ensures |r.shown| == if |stack| < MaxShownTech then |stack| else MaxShownTech
    ensures r.more.Some? <==> |stack| > MaxShownTech
    ensures r.more.Some? ==> r.more.value > 0 && |r.shown| + r.more.value == |stack|
    ensures r.more.None? ==> r.shown == stack
  {
    var shown := if |stack| < MaxShownTech then stack else stack[..MaxShownTech];
    TechRow(shown, if |stack| > MaxShownTech then Some(|stack| - MaxShownTech) else None)
  }

  /** With distinct titles the hover overlay is visible on at most one card. */
  lemma OverlayOnOneCard(hovered: Option<string>, i: nat, j: nat)
    requires i < |Catalogue| && j < |Catalogue|
    requires hovered == Some(Catalogue[i].title) && hovered == Some(Catalogue[j].title)
    ensures i == j
  {
  }

  /** The gallery component's state: the active filter and the hovered card's title. */
  class Gallery {
    var activeFilter: Category
    var hoveredProject: Option<string>

    constructor ()
      ensures activeFilter == All && hoveredProject == None
    {
      activeFilter, hoveredProject := All, None;
    }

    /** The projects in the grid. */
    function Visible(): (r: seq<Project>)
      reads this
      ensures r == Filter(Catalogue, activeFilter)
      ensures forall p :: p in r <==> p in Catalogue && Shown(p, activeFilter)
    {
      FilterMembers(Catalogue, activeFilter);
      Filter(Catalogue, activeFilter)
    }

    /** Whether the `i`-th filter button carries the active style: it does exactly when no other button does. */
    function IsActive(i: nat): (active: bool)
      reads this
      requires i < |Filters|
      ensures active <==> forall j :: 0 <= j < |Filters| && j != i ==> Filters[j].value != activeFilter
    {
      OneButtonPerCategory(activeFilter);
      OneButtonPerCategory(Filters[i].value);
      Filters[i].value == activeFilter
    }

    /** Whether the overlay of card `p` is shown; on a catalogue card, no other catalogue card shows one then. */
    function OverlayVisible(p: Project): (visible: bool)
      reads this
      ensures visible <==> hoveredProject == Some(p.title)
      ensures visible ==> hoveredProject.Some?
      ensures visible && p in Catalogue ==>
                forall j :: 0 <= j < |Catalogue| && Catalogue[j] != p ==> hoveredProject != Some(Catalogue[j].title)
    {
      CatalogueTitlesDistinct();
      hoveredProject == Some(p.title)
    }

    method ClickFilter(i: nat)
      requires i < |Filters|
      modifies this`activeFilter
      ensures activeFilter == Filters[i].value && IsActive(i)
      ensures forall j :: 0 <= j < |Filters| && j != i ==> !IsActive(j)
    {
      activeFilter := Filters[i].value;
      OneButtonPerCategory(activeFilter);
      forall j | 0 <= j < |Filters| && j != i
        ensures !IsActive(j)
      {
        assert Filters[j].value != Filters[i].value;
      }
    }

    method MouseEnter(p: Project)
      modifies this`hoveredProject
      ensures hoveredProject == Some(p.title) && OverlayVisible(p)
    {
      hoveredProject := Some(p.title);
    }

    method MouseLeave()
      modifies this`hoveredProject
      ensures hoveredProject == None
      ensures forall p: Project :: !OverlayVisible(p)
    {
      hoveredProject := None;
    }
  }
}
