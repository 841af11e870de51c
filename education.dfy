/**
 * The education section: a flip card per degree (front summary, back with
 * year tabs and that year's modules) and a dialog showing the module that
 * was clicked on any card.
 */
module Education {
  import opened Wrappers

  datatype ProjectRef = ProjectRef(name: string, link: Option<string>)

  datatype Module = Module(name: string, learnings: seq<string>, project: Option<ProjectRef>)

  datatype YearData = YearData(year: int, modules: seq<Module>)

  datatype Degree = Degree(
    title: string,
    institution: string,
    duration: string,
    years: seq<YearData>,
    inProgress: bool)

  const EducationData: seq<Degree> := [
    Degree("Diploma in Information Technology", "Triumphant College", "02/2021 - 11/2023", [
      YearData(1, [
        Module("Principles of IS", ["Information systems fundamentals", "Business process integration", "System components"], None),
        Module("Mathematics", ["Discrete mathematics", "Logic and proofs", "Set theory"], None),
        Module("Computing Applications", ["Office productivity tools", "Document management", "Spreadsheet analysis"], None),
        Module("Information Processing", ["Data handling", "Information lifecycle", "Processing techniques"], None),
        Module("Intro Programming I", ["Programming fundamentals", "Algorithm basics", "Problem solving"], None)
      ]),
      YearData(2, [
        Module("Software Engineering 1", ["SDLC methodologies", "Requirements gathering", "UML diagrams"], None),
        Module("Web Design", ["HTML/CSS fundamentals", "Responsive design", "User interface principles"], None),
        Module("System Analysis", ["Business analysis", "System modeling", "Feasibility studies"], None),
        Module("Software PM", ["Project planning", "Resource management", "Agile basics"], None),
        Module("IT Systems", ["Hardware components", "System architecture", "IT infrastructure"], None),
        Module("Computer Math", ["Binary systems", "Boolean algebra", "Number theory"], None),
        Module("DBMS", ["Database design", "SQL fundamentals", "Normalization"],
          Some(ProjectRef("Medical Reality Show Database", Some("https://github.com/Tusneld/medical-reality-show-database-design"))))
      ]),
      YearData(3, [
        Module("Software Engineering 2", ["Advanced design patterns", "Testing methodologies", "Code quality"], None),
        Module("Advanced Web", ["JavaScript frameworks", "Backend integration", "API development"], None),
        Module("Advanced Database", ["Query optimization", "Stored procedures", "Database administration"], None),
        Module("Information Systems", ["Enterprise systems", "ERP concepts", "System integration"], None),
        Module("Architecture", ["System architecture patterns", "Scalability", "Microservices intro"], None),
        Module("Feasibility Study", ["Cost-benefit analysis", "Risk assessment", "Project viability"], None),
        Module("Networks 1", ["Network fundamentals", "TCP/IP", "Network security basics"], None)
      ])
    ], false),
    Degree("B.Sc. Computer Science & IT (Honors)", "Triumphant College", "02/2025 - Present", [
      YearData(1, [
        Module("Business Communication", ["Professional writing", "Presentation skills", "Stakeholder communication"], None),
        Module("Intro to Computers", ["Computer fundamentals", "Operating systems", "Digital literacy"], None),
        Module("Networking", ["Network protocols", "LAN/WAN concepts", "Network configuration"], None),
        Module("Programming 1B", ["Object-oriented concepts", "Data structures basics", "Algorithm design"], None)
      ]),
      YearData(2, [
        Module("SQL", ["Advanced queries", "Database optimization", "Data manipulation"], None),
        Module("Statistics", ["Statistical analysis", "Probability theory", "Data interpretation"], None),
        Module("System Administration", ["Server management", "User administration", "System monitoring"], None),
        Module("IT Project Management", ["Agile/Scrum", "Sprint planning", "Stakeholder management"], None),
        Module("Java OOP", ["Java fundamentals", "Design patterns", "Enterprise Java"], None),
        Module("Operating Systems", ["Process management", "Memory allocation", "File systems"], None),
        Module("Advanced Networks", ["Routing protocols", "Network security", "Cloud networking"], None)
      ]),
      YearData(3, [
        Module("Advanced Database", ["NoSQL databases", "Big data concepts", "Data warehousing"], None),
        Module("Business Intelligence", ["BI tools", "Data visualization", "Analytics dashboards"], None),
        Module("Digital Forensics", ["Evidence collection", "Forensic analysis", "Legal frameworks"], None),
        Module("Entrepreneurship", ["Startup fundamentals", "Business models", "Innovation"], None),
        Module("Linux Administration", ["Linux commands", "Shell scripting", "Server setup"], None),
        Module("MIS", ["Management systems", "Decision support", "Enterprise integration"], None),
        Module("Research Methods", ["Research design", "Data collection", "Academic writing"], None)
      ]),
      YearData(4, [
        Module("Algorithms", ["Algorithm analysis", "Complexity theory", "Advanced data structures"], None),
        Module("ERP Systems", ["SAP basics", "Enterprise integration", "Process automation"], None),
        Module("Requirement Analysis", ["Requirements engineering", "Use case modeling", "Specification documents"], None),
        Module("Cloud Computing", ["AWS fundamentals", "Cloud architecture", "Serverless computing"], None),
        Module("E-Business", ["Digital commerce", "Online marketing", "Payment systems"], None),
        Module("DBMS Advanced", ["Distributed databases", "Transaction management", "Recovery systems"], None),
        Module("Mobile Apps", ["Mobile development", "Cross-platform apps", "Mobile UX"], None),
        Module("Project Management", ["Advanced PM", "Risk management", "Quality assurance"], None),
        Module("Research Project", ["Independent research", "Thesis writing", "Presentation"], None)
      ])
    ], true),
    Degree("B.Sc. Data Science", "IU International University", "05/2024 - Present", [], true)
  ]

  // ---------------------------------------------------------------------------
  // Year lookup

  /** The first year record whose number is `y`, if any (`Array.prototype.find`). */
  function FindYear(years: seq<YearData>, y: int): (r: Option<YearData>)
    ensures r.None? <==> forall k :: 0 <= k < |years| ==> years[k].year != y
    ensures r.Some? ==> r.value in years && r.value.year == y
    decreases |years|
  {
    if years == [] then None
    else if years[0].year == y then Some(years[0])
    else FindYear(years[1..], y)
  }

  /** The record found is the first one with that number. */
  lemma {:induction false} FindYearFirst(years: seq<YearData>, y: int, k: nat)
    requires k < |years| && years[k].year == y
    requires forall j :: 0 <= j < k ==> years[j].year != y
    ensures FindYear(years, y) == Some(years[k])
    decreases k
  {
    if k > 0 {
      FindYearFirst(years[1..], y, k - 1);
    }
  }

  /** The modules listed on the back of the card: those of the selected year, or none. */
  function ShownModules(years: seq<YearData>, selectedYear: int): (ms: seq<Module>)
    ensures FindYear(years, selectedYear).Some? ==> ms == FindYear(years, selectedYear).value.modules
    ensures FindYear(years, selectedYear).None? ==> ms == []
  {
    match FindYear(years, selectedYear)
    case Some(yd) => yd.modules
    case None => []
  }

  // ---------------------------------------------------------------------------
  // Front summary

  /** The `reduce` over the years: the number of modules summed year by year, left to right. */
  function ModuleCountFrom(acc: nat, years: seq<YearData>): (n: nat)
    ensures n >= acc
    decreases |years|
  {
    if years == [] then acc else ModuleCountFrom(acc + |years[0].modules|, years[1..])
  }

  /** The total of the front card: the number of modules over all years. */
  function ModuleCount(years: seq<YearData>): (n: nat)
    ensures n == |AllModules(years)|
  {
    ModuleCountFromIsTotal(0, years);
    ModuleCountFrom(0, years)
  }

  /** Every module of every year, in display order. */
  function AllModules(years: seq<YearData>): (ms: seq<Module>)
    decreases |years|
  {
    if years == [] then [] else years[0].modules + AllModules(years[1..])
  }

  /** The modules of any one year are among all the modules. */
  lemma {:induction false} ModulesInAll(years: seq<YearData>, yd: YearData)
    requires yd in years
    ensures forall m :: m in yd.modules ==> m in AllModules(years)
    decreases |years|
  {
    if years[0] != yd {
      ModulesInAll(years[1..], yd);
    }
  }

  /** The left fold with start `acc` is `acc` plus the number of modules over all years. */
  lemma {:induction false} ModuleCountFromIsTotal(acc: nat, years: seq<YearData>)
    ensures ModuleCountFrom(acc, years) == acc + |AllModules(years)|
    decreases |years|
  {
    if years != [] {
      ModuleCountFromIsTotal(acc + |years[0].modules|, years[1..]);
    }
  }

  /** The module count of two runs of years adds up. */
  lemma {:induction false} ModuleCountAppend(a: seq<YearData>, b: seq<YearData>)
    ensures ModuleCount(a + b) == ModuleCount(a) + ModuleCount(b)
  {
    AllModulesAppend(a, b);
  }

  lemma {:induction false} AllModulesAppend(a: seq<YearData>, b: seq<YearData>)
    ensures AllModules(a + b) == AllModules(a) + AllModules(b)
    decreases |a|
  {
    if a == [] {
      assert a + b == b;
    } else {
      assert (a + b)[1..] == a[1..] + b;
      AllModulesAppend(a[1..], b);
    }
  }

  /** What the front of the card shows below the degree details. */
  datatype FrontFooter = Counts(years: nat, modules: nat) | CurrentlyPursuing

  function Footer(d: Degree): (f: FrontFooter)
    ensures f.Counts? <==> |d.years| > 0
    ensures f.Counts? ==> f.years == |d.years| && f.modules == |AllModules(d.years)|
  {
    if |d.years| > 0 then Counts(|d.years|, ModuleCount(d.years)) else CurrentlyPursuing
  }

  /** The two degrees with years list 19 and 27 modules; the third has none yet. */
  lemma CatalogueCounts()
    ensures Footer(EducationData[0]) == Counts(3, 19)
    ensures Footer(EducationData[1]) == Counts(4, 27)
    ensures Footer(EducationData[2]) == CurrentlyPursuing
  {
  }

  /** The "In Progress" badge on the front, shown for a degree marked in progress. */
  function ProgressBadge(d: Degree): (badge: Option<string>)
    ensures badge.Some? <==> d.inProgress
    ensures badge.Some? ==> badge.value == "In Progress"
  {
    if d.inProgress then Some("In Progress") else None
  }

  /** The diploma shows no badge; both degrees still being studied show it. */
  lemma CatalogueBadges()
    ensures ProgressBadge(EducationData[0]).None?
    ensures ProgressBadge(EducationData[1]) == Some("In Progress")
    ensures ProgressBadge(EducationData[2]) == Some("In Progress")
  {
  }

  // ---------------------------------------------------------------------------
  // Back header: `title.split(' ').slice(0, 2).join(' ')`

  const Space: char := ' '

  /** `s.split(' ')`: the pieces between spaces, empty pieces included; never empty. */
  function Split(s: string): (parts: seq<string>)
    ensures |parts| >= 1
    decreases |s|
  {
    if s == [] then [[]]
    else
      var rest := Split(s[1..]);
      if s[0] == Space then [[]] + rest
      else [[s[0]] + rest[0]] + rest[1..]
  }

  /** `parts.join(' ')`: the first piece starts the result, and a space follows it when more come. */
  function Join(parts: seq<string>): (s: string)
    ensures |parts| >= 1 ==> parts[0] <= s
    ensures |parts| >= 2 ==> |parts[0]| < |s| && s[|parts[0]|] == Space
    ensures |parts| == 0 ==> s == []
    decreases |parts|
  {
    if parts == [] then []
    else if |parts| == 1 then parts[0]
    else parts[0] + [Space] + Join(parts[1..])
  }

  /** The number of spaces in `s`. */
  function Spaces(s: string): (n: nat)
    ensures n <= |s|
    decreases |s|
  {
    if s == [] then 0 else (if s[0] == Space then 1 else 0) + Spaces(s[1..])
  }

  lemma {:induction false} SpacesAppend(a: string, b: string)
    ensures Spaces(a + b) == Spaces(a) + Spaces(b)
    decreases |a|
  {
    if a == [] {
      assert a + b == b;
    } else {
      assert (a + b)[1..] == a[1..] + b;
      SpacesAppend(a[1..], b);
    }
  }

  /** No piece of a split contains the separator, and there is one more piece than spaces. */
  lemma {:induction false} SplitPieces(s: string)
    ensures |Split(s)| == Spaces(s) + 1
    ensures forall i :: 0 <= i < |Split(s)| ==> Spaces(Split(s)[i]) == 0
    decreases |s|
  {
    if s != [] {
      SplitPieces(s[1..]);
      var rest := Split(s[1..]);
      if s[0] != Space {
        var head := [s[0]] + rest[0];
        assert head[1..] == rest[0];
        assert Spaces(head) == 0;
        forall i | 0 <= i < |Split(s)|
          ensures Spaces(Split(s)[i]) == 0
        {
          if i > 0 {
            assert Split(s)[i] == rest[i];
          }
        }
      } else {
        forall i | 0 <= i < |Split(s)|
          ensures Spaces(Split(s)[i]) == 0
        {
          if i > 0 {
            assert Split(s)[i] == rest[i - 1];
          }
        }
      }
    }
  }

  /** Joining the pieces of a split gives the original string back. */
  lemma {:induction false} JoinSplit(s: string)
    ensures Join(Split(s)) == s
    decreases |s|
  {
    if s != [] {
      JoinSplit(s[1..]);
      var rest := Split(s[1..]);
      if s[0] == Space {
        calc {
          Join(Split(s));
          Join([[]] + rest);
          { assert ([[]] + rest)[1..] == rest; }
          [] + [Space] + Join(rest);
          s;
        }
      } else {
        var parts := Split(s);
        assert parts[0] == [s[0]] + rest[0];
        assert parts[1..] == rest[1..];
        if |rest| == 1 {
          assert Join(parts) == [s[0]] + rest[0];
          assert Join(rest) == rest[0];
        } else {
          assert Join(parts) == [s[0]] + rest[0] + [Space] + Join(rest[1..]);
          assert Join(rest) == rest[0] + [Space] + Join(rest[1..]);
        }
      }
    }
  }

  /** Joining the first `k` pieces gives a prefix of joining them all, followed by a space unless it is everything. */
  lemma {:induction false} JoinPrefix(parts: seq<string>, k: nat)
    requires 1 <= k <= |parts|
    ensures Join(parts[..k]) <= Join(parts)
    ensures k < |parts| ==> |Join(parts[..k])| < |Join(parts)| && Join(parts)[|Join(parts[..k])|] == Space
    decreases k
  {
    if k == 1 {
      assert parts[..1] == [parts[0]];
    } else {
      JoinPrefix(parts[1..], k - 1);
      assert parts[..k][1..] == parts[1..][..k - 1];
      assert Join(parts[..k]) == parts[0] + [Space] + Join(parts[1..][..k - 1]);
      assert Join(parts) == parts[0] + [Space] + Join(parts[1..]);
    }
  }

  /** Joined pieces have the spaces of the pieces plus one between each pair. */
  lemma {:induction false} JoinSpaces(parts: seq<string>)
    requires |parts| >= 1
    ensures Spaces(Join(parts)) == PieceSpaces(parts) + |parts| - 1
    decreases |parts|
  {
    if |parts| > 1 {
      JoinSpaces(parts[1..]);
      SpacesAppend(parts[0] + [Space], Join(parts[1..]));
      SpacesAppend(parts[0], [Space]);
      assert Spaces([Space]) == 1;
    }
  }

  /** The number of spaces inside the pieces. */
  function PieceSpaces(parts: seq<string>): nat
    decreases |parts|
  {
    if parts == [] then 0 else Spaces(parts[0]) + PieceSpaces(parts[1..])
  }

  lemma {:induction false} SumOfSpaceless(parts: seq<string>)
    requires forall i :: 0 <= i < |parts| ==> Spaces(parts[i]) == 0
    ensures PieceSpaces(parts) == 0
    decreases |parts|
  {
    if parts != [] {
      SumOfSpaceless(parts[1..]);
    }
  }

  /**
   * The header on the back of the card: the first two space-separated words
   * of the title. It is the title up to, not including, its second space: a
   * prefix holding at most one space, that is either the whole title or is
   * followed in it by a space.
   */
  function ShortTitle(title: string): (short: string)
    ensures short <= title
    ensures Spaces(short) == if Spaces(title) < 1 then Spaces(title) else 1
    ensures short == title || title[|short|] == Space
  {
    var parts := Split(title);
    var k := if |parts| < 2 then |parts| else 2;
    SplitPieces(title);
    JoinSplit(title);
    JoinPrefix(parts, k);
    assert k == |parts| ==> parts[..k] == parts;
    SumOfSpaceless(parts[..k]);
    JoinSpaces(parts[..k]);
    Join(parts[..k])
  }

  // ---------------------------------------------------------------------------
  // Dialog

  /** The related-project panel of the module dialog. */
  datatype ProjectPanel = ProjectLink(name: string, url: string) | ComingSoon(name: string) | NoProjectYet

  function Panel(m: Module): (p: ProjectPanel)
    ensures p.ProjectLink? <==> m.project.Some? && Truthy(m.project.value.link)
    ensures p.ComingSoon? <==> m.project.Some? && !Truthy(m.project.value.link)
    ensures p.NoProjectYet? <==> m.project.None?
    ensures !p.NoProjectYet? ==> p.name == m.project.value.name
    ensures p.ProjectLink? ==> p.url == m.project.value.link.value && p.url != []
  {
    match m.project
    case None => NoProjectYet
    case Some(pr) =>
      if Truthy(pr.link) then ProjectLink(pr.name, pr.link.value) else ComingSoon(pr.name)
  }

  /** The open dialog's title, learnings and project panel. */
  datatype DialogView = DialogView(title: string, learnings: seq<string>, panel: ProjectPanel)

  /** One degree's flip card. */
  class FlipCard {
    const degree: Degree
    var isFlipped: bool
    var selectedYear: int

    constructor (degree: Degree)
      ensures this.degree == degree && !isFlipped && selectedYear == 1
    {
      this.degree := degree;
      isFlipped, selectedYear := false, 1;
    }

    /** The modules listed for the selected year: modules of this degree, none when no year matches. */
    function Modules(): (ms: seq<Module>)
      reads this
      ensures forall m :: m in ms ==> m in AllModules(degree.years)
      ensures FindYear(degree.years, selectedYear).None? ==> ms == []
      ensures FindYear(degree.years, selectedYear).Some? ==> ms == FindYear(degree.years, selectedYear).value.modules
    {
      var ms := ShownModules(degree.years, selectedYear);
      if FindYear(degree.years, selectedYear).Some? then
        ModulesInAll(degree.years, FindYear(degree.years, selectedYear).value);
        ms
      else
        ms
    }

    /**
     * Whether tab `i` carries the selected style. A highlighted tab always
     * has modules to list, and they are its own when no earlier tab has the
     * same year number.
     */
    function TabSelected(i: nat): (selected: bool)
      reads this
      requires i < |degree.years|
      ensures selected <==> FindYear(degree.years, selectedYear).Some? &&
                            FindYear(degree.years, selectedYear).value.year == degree.years[i].year
      ensures selected && (forall j :: 0 <= j < i ==> degree.years[j].year != degree.years[i].year) ==>
                Modules() == degree.years[i].modules
    {
      if degree.years[i].year == selectedYear && (forall j :: 0 <= j < i ==> degree.years[j].year != degree.years[i].year) then
        FindYearFirst(degree.years, selectedYear, i);
        true
      else
        degree.years[i].year == selectedYear
    }

    /** A click on the front flips the card only when the degree has years. */
    method ClickFront()
      modifies this`isFlipped
      ensures isFlipped == (old(isFlipped) || |degree.years| > 0)
    {
      if |degree.years| > 0 {
        isFlipped := true;
      }
    }

    /** The close button on the back. */
    method Close()
      modifies this`isFlipped
      ensures !isFlipped
    {
      isFlipped := false;
    }

    /** A click on the `i`-th year tab. */
    method SelectTab(i: nat)
      requires i < |degree.years|
      modifies this`selectedYear
      ensures selectedYear == degree.years[i].year && TabSelected(i)
      ensures FindYear(degree.years, selectedYear).Some?
    {
      selectedYear := degree.years[i].year;
    }
  }

  /** The section's dialog state. */
  class ModuleDialog {
    var selectedModule: Option<Module>

    constructor ()
      ensures selectedModule == None && View().None?
    {
      selectedModule := None;
    }

    /**
     * What the dialog shows: nothing while closed; otherwise the selected
     * module's name as title, its learnings in order, and its project panel.
     */
    function View(): (v: Option<DialogView>)
      reads this
      ensures v.Some? <==> selectedModule.Some?
      ensures v.Some? ==> v.value.title == selectedModule.value.name && v.value.learnings == selectedModule.value.learnings
      ensures v.Some? ==> v.value.panel == Panel(selectedModule.value)
      ensures v.Some? ==> (v.value.panel.NoProjectYet? <==> selectedModule.value.project.None?)
    {
      match selectedModule
      case None => None
      case Some(m) => Some(DialogView(m.name, m.learnings, Panel(m)))
    }

    /** A click on the `i`-th module listed on `card`. */
    method ClickModule(card: FlipCard, i: nat)
      requires i < |card.Modules()|
      modifies this
      ensures selectedModule == Some(card.Modules()[i]) && View().Some?
    {
      selectedModule := Some(card.Modules()[i]);
    }

    /** Any open-state change reported by the dialog closes it. */
    method OpenChange()
      modifies this
      ensures selectedModule == None && View().None?
    {
      selectedModule := None;
    }
  }
}
